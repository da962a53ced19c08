/**
 * Listing the servers of a unit (openstack_cloud/openstack_cloud.py): the cloud may hold several
 * servers of one name, and the listing leaves one of each name.
 */
module Servers {
  import opened Wrappers
  import opened Identifiers

  datatype Server = Server(id: string, name: string, createdAt: int)

  /** The servers of this name, in list order. */
  function Named(all: seq<Server>, name: string): (r: seq<Server>)
    ensures forall s :: s in r <==> s in all && s.name == name
  {
    if all == [] then []
    else
      var before := Named(all[..|all| - 1], name);
      var last := all[|all| - 1];
      if last.name == name then before + [last] else before
  }

  /** The fold that picks the server to keep. */
  function Survivor(servers: seq<Server>): Server
    requires servers != []
  {
    var last := servers[|servers| - 1];
    if |servers| == 1 then last
    else
      var a := Survivor(servers[..|servers| - 1]);
      if a.createdAt < last.createdAt then a else last
  }

  /** It is the one created first and, among several such, the last one listed. */
  lemma {:induction false} SurvivorIsEarliest(servers: seq<Server>)
    requires servers != []
    ensures forall s :: s in servers ==> Survivor(servers).createdAt <= s.createdAt
    ensures exists i :: 0 <= i < |servers| && servers[i] == Survivor(servers)
                        && forall j :: i < j < |servers| ==> servers[i].createdAt < servers[j].createdAt
  {
    var last := |servers| - 1;
    if last == 0 {
      assert servers[0] == Survivor(servers);
    } else {
      var before := servers[..last];
      SurvivorIsEarliest(before);
      if Survivor(servers) == servers[last] {
      } else {
        var i :| 0 <= i < |before| && before[i] == Survivor(before)
                 && forall j :: i < j < |before| ==> before[i].createdAt < before[j].createdAt;
        forall j | i < j < |servers| ensures servers[i].createdAt < servers[j].createdAt {
          if j < last { assert before[j] == servers[j]; }
        }
        assert servers[i] == Survivor(servers);
      }
    }
  }

  /** The latest server is kept only if no other is older: the documented choice is not made. */
  lemma {:induction false} LatestIsKeptIffAllAreSameAge(servers: seq<Server>)
    requires servers != []
    ensures (forall s :: s in servers ==> s.createdAt <= Survivor(servers).createdAt)
            <==> forall i :: 0 <= i < |servers| ==> servers[i].createdAt == servers[0].createdAt
  {
    SurvivorIsEarliest(servers);
    assert servers[0] in servers && Survivor(servers) in servers;
    if forall i :: 0 <= i < |servers| ==> servers[i].createdAt == servers[0].createdAt {
      forall s | s in servers ensures s.createdAt <= Survivor(servers).createdAt {
        var i :| 0 <= i < |servers| && servers[i] == s;
        var k :| 0 <= k < |servers| && servers[k] == Survivor(servers);
      }
    }
  }

  /** One identifier for each of the names, and no other. */
  ghost predicate AllParsed(prefix: string, instances: seq<InstanceID>, names: set<string>) {
    && (forall n :: n in names ==> NameHasPrefix(prefix, n) && BuildFromName(prefix, n).value in instances)
    && (forall id :: id in instances ==> id.Name() in names && BuildFromName(prefix, id.Name()) == Success(id))
    && (forall i, j :: 0 <= i < j < |instances| ==> instances[i] != instances[j])
  }

  lemma {:induction false} NoneParsed(prefix: string)
    ensures AllParsed(prefix, [], {})
  {}

  lemma {:induction false} ParsedOneMore(prefix: string, instances: seq<InstanceID>, names: set<string>, name: string)
    requires AllParsed(prefix, instances, names) && name !in names && NameHasPrefix(prefix, name)
    ensures BuildFromName(prefix, name).Success?
    ensures AllParsed(prefix, instances + [BuildFromName(prefix, name).value], names + {name})
  {
    ParseThenPrint(prefix, name);
    assert BuildFromName(prefix, name).value !in instances;
  }

  /** A server of the same name that is not younger stays. */
  ghost predicate HasOlderTwin(servers: set<Server>, s: Server) {
    exists kept :: kept in servers && kept.name == s.name && kept.createdAt <= s.createdAt
  }

  /** Of two servers of one name the one created later is deleted, in either order of the list. */
  lemma {:induction false} LaterServerIsDeleted(name: string)
    ensures var first, later := Server("id-1", name, 100), Server("id-2", name, 200);
            && Survivor(Named([first, later], name)) == first
            && Survivor(Named([later, first], name)) == first
  {
    var first, later := Server("id-1", name, 100), Server("id-2", name, 200);
    assert [first, later][..1] == [first] && [later, first][..1] == [later];
    assert [first][..0] == [] && [later][..0] == [];
    assert Named([first], name) == [first] && Named([later], name) == [later];
    assert Named([first, later], name) == [first, later] && Named([later, first], name) == [later, first];
    assert Survivor([first]) == first && Survivor([later]) == later;
  }

  /** The servers listed in `all` that bear one of the names have been reduced to one a name. */
  ghost predicate Reduced(all: seq<Server>, before: set<Server>, after: set<Server>, names: set<string>, clean: bool) {
    && after <= before
    && (forall s :: s in before && s !in after ==> s in all && s.name in names && HasOlderTwin(after, s))
    && (clean ==> forall a, b ::
          a in all && b in all && a in after && b in after && a.name == b.name && a.name in names ==> a == b)
  }

  lemma {:induction false} NoneReduced(all: seq<Server>, servers: set<Server>)
    ensures Reduced(all, servers, servers, {}, true)
  {}

  lemma {:induction false} ReducedOneMore(
    all: seq<Server>, before: set<Server>, between: set<Server>, after: set<Server>, names: set<string>, clean: bool,
    name: string, kept: Server, unique: bool)
    requires Reduced(all, before, between, names, clean) && name !in names
    requires after <= between && kept in after && kept.name == name
    requires forall s :: s in between && s !in after ==> s in all && s.name == name && kept.createdAt <= s.createdAt
    requires unique ==> forall s :: s in all && s.name == name && s in after ==> s == kept
    ensures Reduced(all, before, after, names + {name}, clean && unique)
  {
    forall s | s in before && s !in after ensures s in all && s.name in names + {name} && HasOlderTwin(after, s) {
      if s !in between {
        var twin :| twin in between && twin.name == s.name && twin.createdAt <= s.createdAt;
        assert twin in after;
      }
    }
  }

  /** What bears another name is untouched. */
  lemma {:induction false} OtherNamesStay(
    all: seq<Server>, before: set<Server>, after: set<Server>, names: set<string>, clean: bool, name: string)
    requires Reduced(all, before, after, names, clean) && name !in names
    requires forall s :: s in all ==> s in before
    ensures forall s :: s in all && s.name == name ==> s in after
  {}

  /** Two servers of one name. */
  predicate Twins(prefix: string, a: Server, b: Server) {
    NameHasPrefix(prefix, a.name) && a.name == b.name && a != b
  }

  class Cloud {
    const prefix: string
    var servers: set<Server>
    /** The servers whose deletion was asked for. */
    ghost var asked: set<Server>
    /** Whether no deletion fails. */
    const faultFree: bool

    ghost predicate Valid() reads this {
      forall a, b :: a in servers && b in servers && a.id == b.id ==> a == b
    }

    constructor (prefix: string, servers: set<Server>, faultFree: bool)
      requires forall a, b :: a in servers && b in servers && a.id == b.id ==> a == b
      ensures Valid() && this.prefix == prefix && this.servers == servers && asked == {}
      ensures this.faultFree == faultFree
    {
      this.prefix, this.servers, this.faultFree, asked := prefix, servers, faultFree, {};
    }

    /** Deletes a server by its ID, unless the cloud reports an error. */
    method DeleteServer(server: Server) returns (ok: bool)
      requires Valid() && server in servers
      modifies this`servers, this`asked
      ensures Valid() && servers == if ok then old(servers) - {server} else old(servers)
      ensures asked == old(asked) + {server}
      ensures faultFree ==> ok
    {
      asked := asked + {server};
      ok := *;
      ok := ok || faultFree;
      if ok { servers := set s | s in servers && s.id != server.id; }
    }

    /** No two servers of this prefix share a name. */
    ghost predicate OnePerName() reads this {
      forall a, b :: a in servers && b in servers && NameHasPrefix(prefix, a.name) && a.name == b.name ==> a == b
    }

    /**
     * Keeps one server of the name and asks for the deletion of every other; a failed one is only
     * logged.
     */
    method EnsureUniqueServer(name: string, all: seq<Server>) returns (kept: Server, clean: bool)
      requires Valid() && exists s :: s in all && s.name == name
      requires forall s :: s in all && s.name == name ==> s in servers
      modifies this`servers, this`asked
      ensures asked == old(asked) + set s | s in all && s.name == name && s != kept
      ensures faultFree ==> clean
      ensures Valid() && kept == Survivor(Named(all, name)) && kept in servers && kept.name == name
      ensures forall s :: s in old(servers) && s !in servers ==> s in all && s.name == name && kept.createdAt <= s.createdAt
      ensures servers <= old(servers)
      ensures clean ==> forall s :: s in all && s.name == name && s in servers ==> s == kept
    {
      var named := Named(all, name);
      kept, clean := Survivor(named), true;
      SurvivorIsEarliest(named);
      var outdated := set s | s in named && s != kept;
      ghost var others := outdated;
      while outdated != {}
        invariant outdated <= others && asked == old(asked) + (others - outdated)
        invariant faultFree ==> clean
        invariant Valid() && outdated <= servers <= old(servers) && kept in servers && kept !in outdated
        invariant forall s :: s in outdated || s in old(servers) - servers ==>
                                s in all && s.name == name && kept.createdAt <= s.createdAt
        invariant clean ==> forall s :: s in named && s in servers ==> s == kept || s in outdated
        decreases outdated
      {
        var s :| s in outdated;
        var ok := DeleteServer(s);
        outdated, clean := outdated - {s}, clean && ok;
      }
    }

    /** Every server of this prefix, in any order. */
    method ListServers() returns (all: seq<Server>)
      ensures forall s :: s in all <==> s in servers && NameHasPrefix(prefix, s.name)
    {
      var left := set s | s in servers && NameHasPrefix(prefix, s.name);
      all := [];
      while left != {}
        invariant left <= servers
        invariant forall s :: s in servers && NameHasPrefix(prefix, s.name) <==> s in left || s in all
        decreases left
      {
        var s :| s in left;
        all, left := all + [s], left - {s};
      }
    }

    /**
     * The instances of this unit: every name of the prefix exactly once, so no two instances share
     * an ID. A server is deleted only if an older or equally old one of its name stays.
     */
    method GetInstances() returns (instances: seq<InstanceID>, clean: bool)
      requires Valid()
      modifies this`servers, this`asked
      ensures Valid() && servers <= old(servers)
      ensures forall a, b :: a in old(servers) && b in old(servers) && Twins(prefix, a, b) ==> a in asked || b in asked
      ensures faultFree ==> clean
      ensures AllParsed(prefix, instances, set s | s in old(servers) && NameHasPrefix(prefix, s.name) :: s.name)
      ensures forall s :: s in old(servers) && s !in servers ==>
                            NameHasPrefix(prefix, s.name) && HasOlderTwin(servers, s)
      ensures clean ==> OnePerName()
    {
      var all := ListServers();
      var names := set s <- all :: s.name;
      ghost var every, done := names, {};
      assert every == set s | s in servers && NameHasPrefix(prefix, s.name) :: s.name;
      instances, clean := [], true;
      NoneParsed(prefix);
      NoneReduced(all, servers);
      while names != {}
        invariant Valid() && names !! done && names + done == every
        invariant AllParsed(prefix, instances, done)
        invariant Reduced(all, old(servers), servers, done, clean)
        invariant forall a, b :: a in all && b in all && Twins(prefix, a, b) && a.name in done ==>
                                   a in asked || b in asked
        invariant faultFree ==> clean
        decreases names
      {
        hide AllParsed, Survivor, Named, BuildFromName, Reduced;
        var name :| name in names;
        OtherNamesStay(all, old(servers), servers, done, clean, name);
        ghost var between := servers;
        var kept, unique := EnsureUniqueServer(name, all);
        ReducedOneMore(all, old(servers), between, servers, done, clean, name, kept, unique);
        ParsedOneMore(prefix, instances, done, name);
        instances, clean := instances + [BuildFromName(prefix, kept.name).value], clean && unique;
        names, done := names - {name}, done + {name};
      }
      assert done == every;
    }
  }
}
