/** The repositories, kept as name-keyed maps, and `AccessControlService`:
    exact-name lookup, save, delete and the allow-only permission resolver. */
module AccessControl {
  import opened Domain

  /** Every entry is stored under its own name. */
  predicate KeyedByName(acls: map<string, ACL>) {
    forall n :: n in acls ==> acls[n].name == n
  }

  predicate GroupsKeyedByName(groups: map<string, Group>) {
    forall n :: n in groups ==> groups[n].name == n
  }

  /** The ACL, ACE and group repositories. ACEs are kept in the order they
      were saved. */
  class Repositories {
    var acls: map<string, ACL>
    var aces: seq<ACE>
    var groups: map<string, Group>

    ghost predicate Valid()
      reads this
    {
      KeyedByName(acls) && GroupsKeyedByName(groups)
    }

    constructor (acls: map<string, ACL>, aces: seq<ACE>, groups: map<string, Group>)
      ensures this.acls == acls && this.aces == aces && this.groups == groups
    {
      this.acls := acls;
      this.aces := aces;
      this.groups := groups;
    }
  }

  /** An ACE applies to a caller when its principal is the user id itself or
      one of the roles, by literal equality. Group membership plays no part. */
  predicate Applies(ace: ACE, userId: string, roles: seq<string>) {
    ace.principalId == userId || ace.principalId in roles
  }

  /** The operations granted on `aclName`: the union of the operations of the
      ACEs that apply; nothing when no ACL has that name. */
  function Permitted(acls: map<string, ACL>, userId: string, roles: seq<string>, aclName: string): (ops: set<string>)
    ensures aclName !in acls ==> ops == {}
    ensures forall op :: op in ops <==>
      (aclName in acls && exists ace :: ace in acls[aclName].aces && Applies(ace, userId, roles) && op in ace.operations)
  {
    if aclName !in acls then {}
    else GrantedBy(acls[aclName].aces, userId, roles)
  }

  function GrantedBy(aces: set<ACE>, userId: string, roles: seq<string>): (ops: set<string>)
    ensures forall ace :: ace in aces && Applies(ace, userId, roles) ==> ace.operations <= ops
    ensures forall op :: op in ops ==> exists ace :: ace in aces && Applies(ace, userId, roles) && op in ace.operations
  {
    set ace, op | ace in aces && Applies(ace, userId, roles) && op in ace.operations :: op
  }

  /** Allow-only: more roles never take an operation away. */
  lemma PermittedMonotoneInRoles(acls: map<string, ACL>, userId: string, roles: seq<string>, more: seq<string>, aclName: string)
    requires forall r :: r in roles ==> r in more
    ensures Permitted(acls, userId, roles, aclName) <= Permitted(acls, userId, more, aclName)
  {
  }

  /** Allow-only: more ACEs never take an operation away. */
  lemma PermittedMonotoneInAces(acl: ACL, extra: set<ACE>, acls: map<string, ACL>, userId: string, roles: seq<string>)
    requires acl.name in acls && acls[acl.name] == acl
    ensures Permitted(acls, userId, roles, acl.name)
         <= Permitted(acls[acl.name := acl.(aces := acl.aces + extra)], userId, roles, acl.name)
  {
  }

  /** An ACE whose principal is neither the user nor one of the roles adds
      nothing, even when it names a group the user belongs to. */
  lemma InapplicableAceGrantsNothing(acl: ACL, ace: ACE, acls: map<string, ACL>, userId: string, roles: seq<string>)
    requires acl.name in acls && acls[acl.name] == acl
    requires !Applies(ace, userId, roles)
    ensures Permitted(acls[acl.name := acl.(aces := acl.aces + {ace})], userId, roles, acl.name)
         == Permitted(acls, userId, roles, acl.name)
  {
  }

  class AccessControlService {
    const repos: Repositories

    constructor (repos: Repositories)
      ensures this.repos == repos
    {
      this.repos := repos;
    }

    /** Exact-name lookup; `None` stands for Kotlin's `null`. */
    function Acl(name: string): (r: Option<ACL>)
      reads repos
      requires repos.Valid()
      ensures r.None? <==> name !in repos.acls
      ensures r.Some? ==> r.value == repos.acls[name] && r.value.name == name
    {
      if name in repos.acls then Some(repos.acls[name]) else None
    }

    /** Saves `acl`, replacing what was stored under its name. */
    method Update(acl: ACL)
      requires repos.Valid()
      modifies repos
      ensures repos.Valid()
      ensures repos.acls == old(repos.acls)[acl.name := acl]
      ensures repos.aces == old(repos.aces) && repos.groups == old(repos.groups)
    {
      repos.acls := repos.acls[acl.name := acl];
    }

    /** Removes the ACL stored under the name of `acl`. */
    method Delete(acl: ACL)
      requires repos.Valid()
      modifies repos
      ensures repos.Valid()
      ensures repos.acls == old(repos.acls) - {acl.name}
      ensures repos.aces == old(repos.aces) && repos.groups == old(repos.groups)
    {
      repos.acls := repos.acls - {acl.name};
    }

    /** The permission resolver: walks the ACEs of the named ACL and
        accumulates, in a set, the operations of those that apply. */
    method Permissions(userId: string, roles: seq<string>, aclName: string) returns (r: seq<string>)
      ensures aclName !in repos.acls ==> r == []
      ensures Listing(r, Permitted(repos.acls, userId, roles, aclName))
    {
      if aclName !in repos.acls {
        return [];
      }
      var acl := repos.acls[aclName];
      var all: set<string> := {};
      var remaining := acl.aces;
      while remaining != {}
        invariant remaining <= acl.aces
        invariant all == GrantedBy(acl.aces - remaining, userId, roles)
        decreases remaining
      {
        var ace :| ace in remaining;
        if ace.principalId == userId {
          all := all + ace.operations;
        }
        if ace.principalId in roles {
          all := all + ace.operations;
        }
        GrantedByAdd(acl.aces - remaining, ace, userId, roles);
        assert acl.aces - (remaining - {ace}) == (acl.aces - remaining) + {ace};
        remaining := remaining - {ace};
      }
      assert acl.aces - remaining == acl.aces;
      r := ToList(all);
    }
  }

  lemma GrantedByAdd(done: set<ACE>, ace: ACE, userId: string, roles: seq<string>)
    ensures GrantedBy(done + {ace}, userId, roles)
         == GrantedBy(done, userId, roles) + (if Applies(ace, userId, roles) then ace.operations else {})
  {
  }

  /** `allPermissions.toList()`: the elements of a set, each once, in some order. */
  method ToList(s: set<string>) returns (xs: seq<string>)
    ensures Listing(xs, s)
  {
    xs := [];
    var rest := s;
    while rest != {}
      invariant rest <= s
      invariant forall x :: x in xs <==> x in s - rest
      invariant forall i, j :: 0 <= i < j < |xs| ==> xs[i] != xs[j]
      decreases rest
    {
      var x :| x in rest;
      assert x !in xs;
      xs := xs + [x];
      rest := rest - {x};
    }
  }
}
