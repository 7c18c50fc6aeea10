/**
 * The two tables of the Prisma store the admin and user pages use, `forms`
 * and `domains`, held in memory: forms by their autoincremented id, domains
 * by their `domain_id`.
 */
module Store {
  import opened JsString

  /** One row of `forms` (without its timestamps). */
  datatype Form = Form(domainId: string, title: string, description: string, fields: string, isActive: bool)

  /** Both tables and the next autoincrement id, as a value. */
  datatype Tables = Tables(forms: map<int, Form>, domains: set<string>, nextId: int)

  /** The autoincrement counter is above every id in use. */
  predicate Fresh(t: Tables) {
    forall id :: id in t.forms ==> id < t.nextId
  }

  /** `forms.findFirst({ where: { id, domain_id } })`. */
  function FindFirst(forms: map<int, Form>, id: int, domainId: string): Option<Form> {
    if id in forms && forms[id].domainId == domainId then Some(forms[id]) else None
  }

  class Database {
    var forms: map<int, Form>
    var domains: set<string>
    var nextId: int
    /** The column default of `is_active`, which `forms.create` uses when none is given. */
    const activeByDefault: bool

    function Snapshot(): Tables
      reads this
    {
      Tables(forms, domains, nextId)
    }

    ghost predicate Valid()
      reads this
    {
      Fresh(Snapshot())
    }

    constructor(activeByDefault: bool)
      ensures Valid()
      ensures forms == map[] && domains == {} && this.activeByDefault == activeByDefault
    {
      forms := map[];
      domains := {};
      nextId := 1;
      this.activeByDefault := activeByDefault;
    }

    /** `domains.create({ data: { domain_id } })`. */
    method CreateDomain(domainId: string)
      requires Valid()
      modifies this
      ensures Valid()
      ensures domains == old(domains) + {domainId}
      ensures forms == old(forms) && nextId == old(nextId)
    {
      domains := domains + {domainId};
    }

    /** `forms.create({ data })`: the new row gets the next id. */
    method CreateForm(form: Form) returns (id: int)
      requires Valid()
      modifies this
      ensures Valid()
      ensures id == old(nextId) && id !in old(forms)
      ensures forms == old(forms)[id := form] && nextId == old(nextId) + 1
      ensures domains == old(domains)
    {
      id := nextId;
      forms := forms[id := form];
      nextId := nextId + 1;
    }

    /** `forms.delete({ where: { id } })`. */
    method DeleteForm(id: int)
      requires Valid() && id in forms
      modifies this
      ensures Valid()
      ensures forms == old(forms) - {id}
      ensures domains == old(domains) && nextId == old(nextId)
    {
      forms := forms - {id};
    }

    /** `forms.update({ where: { id }, data: { is_active } })`. */
    method SetActive(id: int, isActive: bool)
      requires Valid() && id in forms
      modifies this
      ensures Valid()
      ensures forms == old(forms)[id := old(forms)[id].(isActive := isActive)]
      ensures domains == old(domains) && nextId == old(nextId)
    {
      forms := forms[id := forms[id].(isActive := isActive)];
    }
  }
}
