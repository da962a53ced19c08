/**
 * SSH keys of the cloud servers (openstack_cloud/openstack_cloud.py): a key file on the unit and a
 * keypair in the cloud for each server, all three bound together by the server's name alone.
 */
module Keys {
  import opened Wrappers
  import opened Identifiers

  const KEY_SUFFIX := ".key"

  /** Key files at most this old are spared, because their server may not be listed yet. */
  const MIN_KEYPAIR_AGE_BEFORE_DELETION := 60

  /** An entry of the key directory. */
  datatype Entry = Entry(isFile: bool, mtime: int)

  /** A call that raises may have taken effect all the same. */
  datatype Call = Done | Raised(happened: bool) {
    predicate Happened() { Done? || happened }
  }

  /** Whether a creation that timed out has its server when the deletion after it is asked for. */
  datatype Presence = Absent | Present | Late

  /** Failed is an error of the cloud, Escaped one that the launch does not handle. */
  datatype Creation = Created | TimedOut(server: Presence) | Failed(left: bool) | Escaped(left: bool)

  /** Errored and NotDeleted are caught; UnlinkRaised is an error of the file system, which is not. */
  datatype KeypairDeletion = Deleted | NotDeleted | Errored(happened: bool) | UnlinkRaised {
    predicate TakesKeypair() { Deleted? || UnlinkRaised? || (Errored? && happened) }
  }

  /** How the cloud and the file system answer the calls of one launch. */
  datatype Answers = Answers(
    keypair: Call, keyFile: Call, creation: Creation, deletion: Call, keypairDeletion: KeypairDeletion)
  {
    /** The creation fails, and leaves its server. */
    predicate LeaveServer() {
      match creation
      case Created => false
      case TimedOut(server) => server.Late? || (server.Present? && !deletion.Happened())
      case Failed(left) => left
      case Escaped(left) => left
    }

    /** The creation fails, and the keys made for it are deleted. */
    predicate DeleteKeys() {
      (creation.Failed? || (creation.TimedOut? && deletion.Done?)) && keypairDeletion.TakesKeypair()
    }
  }

  const ALL_WELL := Answers(Done, Done, Created, Done, Deleted)

  /**
   * How the calls of one expiry pass are answered: what is listed, which servers a list may omit,
   * the time between the listing and the reading of the clock, and what cannot be deleted.
   */
  datatype ExpiryAnswers = ExpiryAnswers(
    serversListed: bool, hidden: set<string>, elapsed: nat, undeletable: set<string>, keypairsListed: bool,
    deletions: map<string, KeypairDeletion>)
  {
    function Deletion(name: string): KeypairDeletion {
      if name in deletions then deletions[name] else Deleted
    }
  }

  function KeyFile(name: string): string { name + KEY_SUFFIX }

  predicate IsKeyFile(f: string) {
    |KEY_SUFFIX| <= |f| && f[|f| - |KEY_SUFFIX|..] == KEY_SUFFIX
  }

  function RemoveSuffix(f: string): string {
    if IsKeyFile(f) then f[..|f| - |KEY_SUFFIX|] else f
  }

  predicate OwnKeyFile(prefix: string, f: string, entry: Entry) {
    entry.isFile && NameHasPrefix(prefix, f) && IsKeyFile(f)
  }

  predicate IsFresh(entry: Entry, now: int) {
    entry.mtime >= now - MIN_KEYPAIR_AGE_BEFORE_DELETION
  }

  /** The key file f is excluded from deletion. */
  predicate Spared(prefix: string, files: map<string, Entry>, listed: set<string>, now: int, f: string) {
    || (exists name :: name in listed && NameHasPrefix(prefix, name) && f == KeyFile(name))
    || (f in files && OwnKeyFile(prefix, f, files[f]) && IsFresh(files[f], now))
  }

  /** What expiry leaves of the files: foreign entries, and the keys of listed servers or fresh ones. */
  function KeptFiles(prefix: string, files: map<string, Entry>, listed: set<string>, now: int): map<string, Entry> {
    map f | f in files && (!OwnKeyFile(prefix, f, files[f]) || Spared(prefix, files, listed, now, f)) :: files[f]
  }

  function KeptKeypairs(
    prefix: string, files: map<string, Entry>, keypairs: set<string>, listed: set<string>, now: int): set<string>
  {
    set k | k in keypairs && (!NameHasPrefix(prefix, k) || Spared(prefix, files, listed, now, KeyFile(k)))
  }

  function WithoutExpired(prefix: string, files: map<string, Entry>, excluded: set<string>): map<string, Entry> {
    map f | f in files && (!OwnKeyFile(prefix, f, files[f]) || f in excluded) :: files[f]
  }

  lemma {:induction false} SuffixRoundTrip(name: string)
    ensures IsKeyFile(KeyFile(name)) && RemoveSuffix(KeyFile(name)) == name
  {
    assert KeyFile(name)[..|name|] == name;
  }

  lemma {:induction false} FileRoundTrip(f: string)
    requires IsKeyFile(f)
    ensures KeyFile(RemoveSuffix(f)) == f
  {}

  lemma {:induction false} KeyFilesAreInjective(a: string, b: string)
    requires KeyFile(a) == KeyFile(b)
    ensures a == b
  {
    SuffixRoundTrip(a);
    SuffixRoundTrip(b);
  }

  /** The excluded files are the spared ones, and so are the excluded names. */
  lemma {:induction false} ExcludedAreSpared(
    prefix: string, files: map<string, Entry>, listed: set<string>, now: int, excluded: set<string>)
    requires forall f :: f in excluded <==> Spared(prefix, files, listed, now, f)
    ensures WithoutExpired(prefix, files, excluded) == KeptFiles(prefix, files, listed, now)
    ensures forall f :: f in excluded ==> IsKeyFile(f)
    ensures forall k :: k in (set f | f in excluded :: RemoveSuffix(f)) <==> Spared(prefix, files, listed, now, KeyFile(k))
  {
    forall f | f in excluded ensures IsKeyFile(f) {
      if name :| name in listed && NameHasPrefix(prefix, name) && f == KeyFile(name) { SuffixRoundTrip(name); }
    }
    forall k ensures k in (set f | f in excluded :: RemoveSuffix(f)) <==> KeyFile(k) in excluded {
      SuffixRoundTrip(k);
      if f :| f in excluded && RemoveSuffix(f) == k { FileRoundTrip(f); }
    }
  }

  /** A keypair that expiry deletes. */
  predicate Expirable(prefix: string, k: string, excluded: set<string>) {
    NameHasPrefix(prefix, k) && k !in excluded
  }

  /** The file is the key file of a keypair that expiry deletes. */
  ghost predicate IsKeyOfExpired(prefix: string, f: string, keypairs: set<string>, excluded: set<string>) {
    exists k :: k in keypairs && Expirable(prefix, k, excluded) && f == KeyFile(k)
  }

  /** Once the key files that are not excluded are gone, no name that is not excluded has one. */
  lemma {:induction false} ExpiredKeysHaveNoFile(
    prefix: string, files: map<string, Entry>, excluded: set<string>, names: set<string>)
    requires forall f :: f in files && OwnKeyFile(prefix, f, files[f]) ==> f in excluded
    requires forall k :: KeyFile(k) in excluded ==> k in names
    ensures forall k :: Expirable(prefix, k, names) && KeyFile(k) in files ==> !files[KeyFile(k)].isFile
  {
    forall k | Expirable(prefix, k, names) && KeyFile(k) in files ensures !files[KeyFile(k)].isFile {
      SuffixRoundTrip(k);
    }
  }

  /** The unlink that follows the deletion of this keypair raises; a directory cannot be unlinked. */
  predicate UnlinkFails(files: map<string, Entry>, name: string, answer: KeypairDeletion) {
    answer.UnlinkRaised? || (answer.Deleted? && KeyFile(name) in files && !files[KeyFile(name)].isFile)
  }

  /** No call of the expiry raises. */
  predicate Completes(
    prefix: string, files: map<string, Entry>, keypairs: set<string>, listed: set<string>, now: int, a: ExpiryAnswers)
  {
    && (forall f :: f in files && f !in KeptFiles(prefix, files, listed, now) ==> f !in a.undeletable)
    && a.keypairsListed
    && forall k :: k in keypairs && k !in KeptKeypairs(prefix, files, keypairs, listed, now) ==>
                     !UnlinkFails(files, k, a.Deletion(k))
  }

  /** The pass over the key files changes nothing about which unlinks fail. */
  lemma {:induction false} UnlinkFailsStill(
    prefix: string, files: map<string, Entry>, left: map<string, Entry>, names: set<string>, excluded: set<string>)
    requires left == WithoutExpired(prefix, files, excluded)
    ensures forall k, answer :: UnlinkFails(left, k, answer) <==> UnlinkFails(files, k, answer)
  {
  }

  /** Whether a key file written at this time is fresh, some time after the clock shows `now`. */
  predicate IsYoung(mtime: int, now: int, elapsed: int) {
    now - mtime + elapsed <= 60
  }

  /**
   * The server is listed, or its key file has not outlived the minimum age by the time the clock is
   * read, however young it was at the listing.
   */
  predicate Outlasts(name: string, listed: set<string>, files: map<string, Entry>, listedAt: int, readAt: int) {
    || name in listed
    || (KeyFile(name) in files && files[KeyFile(name)].isFile
        && IsYoung(files[KeyFile(name)].mtime, listedAt, readAt - listedAt))
  }

  /**
   * A key file that nothing spares is gone, and so is a keypair, with or without a key file; every
   * one that is spared stays.
   */
  lemma {:induction false} ExpiryIsExact(
    prefix: string, files: map<string, Entry>, keypairs: set<string>, listed: set<string>, listedAt: int, now: int,
    name: string)
    requires NameHasPrefix(prefix, name)
    ensures KeyFile(name) in files && files[KeyFile(name)].isFile ==>
              (KeyFile(name) in KeptFiles(prefix, files, listed, now) <==> Outlasts(name, listed, files, listedAt, now))
    ensures name in keypairs ==>
              (name in KeptKeypairs(prefix, files, keypairs, listed, now) <==> Outlasts(name, listed, files, listedAt, now))
  {
    SuffixRoundTrip(name);
    if other :| other in listed && NameHasPrefix(prefix, other) && KeyFile(name) == KeyFile(other) {
      KeyFilesAreInjective(name, other);
    }
    assert KeyFile(name)[..|prefix| + 1] == name[..|prefix| + 1];
  }

  /** A dash never lies in the suffix, so the name of an own key file has the prefix too. */
  lemma {:induction false} NameOfKeyFile(prefix: string, f: string)
    requires NameHasPrefix(prefix, f) && IsKeyFile(f)
    ensures |f| >= 4 && f == RemoveSuffix(f) + ".key" && NameHasPrefix(prefix, RemoveSuffix(f))
  {
    assert f[|prefix|] == (prefix + "-")[|prefix|] == '-';
    assert forall i :: 0 <= i < 4 ==> f[|f| - 4 + i] == f[|f| - 4..][i] == ".key"[i];
    assert |prefix| + 1 <= |f| - 4;
    assert f[..|f| - 4][..|prefix| + 1] == f[..|prefix| + 1];
  }

  /** Nothing goes but keypairs of the prefix and regular files of the prefix that end in .key. */
  lemma {:induction false} ExpiryTakesOnlyKeys(
    prefix: string, files: map<string, Entry>, keypairs: set<string>, listed: set<string>, now: int, f: string)
    ensures f in files && f !in KeptFiles(prefix, files, listed, now) ==>
              files[f].isFile && exists name :: f == name + ".key" && prefix + "-" <= name && name !in listed
    ensures f in keypairs && f !in KeptKeypairs(prefix, files, keypairs, listed, now) ==>
              prefix + "-" <= f && f !in listed
  {
    if f in files && f !in KeptFiles(prefix, files, listed, now) {
      NameOfKeyFile(prefix, f);
      FileRoundTrip(f);
      var name := RemoveSuffix(f);
      assert f == name + ".key" && name !in listed;
    }
  }

  /** A key that is 59 seconds old at the listing is lost if the clock is read two seconds later. */
  lemma {:induction false} SlowPassLosesAKey(prefix: string, token: string)
    ensures var name := InstanceID(prefix, token, "").Name();
            var files := map[KeyFile(name) := Entry(true, 0)];
            && IsYoung(0, 59, 0) && !Outlasts(name, {}, files, 59, 61)
            && KeyFile(name) !in KeptFiles(prefix, files, {}, 61) && KeptKeypairs(prefix, files, {name}, {}, 61) == {}
  {
    var name := InstanceID(prefix, token, "").Name();
    var files := map[KeyFile(name) := Entry(true, 0)];
    assert name[..|prefix| + 1] == prefix + "-";
    ExpiryIsExact(prefix, files, {name}, {}, 59, 61, name);
  }

  /** Nothing but the keys under this name has changed. */
  ghost predicate OnlyKeysOf(
    name: string, files: map<string, Entry>, keypairs: set<string>, files': map<string, Entry>, keypairs': set<string>)
  {
    && (forall f :: f != KeyFile(name) ==>
          (f in files <==> f in files') && (f in files ==> files[f] == files'[f]))
    && (forall k :: k != name ==> (k in keypairs <==> k in keypairs'))
  }

  class KeyStore {
    const prefix: string
    var files: map<string, Entry>
    var keypairs: set<string>
    var servers: set<string>
    var now: int

    predicate HasKeys(name: string) reads this {
      KeyFile(name) in files && files[KeyFile(name)].isFile && name in keypairs
    }

    /** Every server of this prefix has its key file and its keypair. */
    ghost predicate Valid() reads this {
      forall name :: name in servers && NameHasPrefix(prefix, name) ==> HasKeys(name)
    }

    constructor (prefix: string)
      ensures Valid() && this.prefix == prefix && files == map[] && keypairs == {} && servers == {}
    {
      this.prefix, files, keypairs, servers, now := prefix, map[], {}, {}, 0;
    }

    // -------------------------------------------------------------- launching and deleting

    /** The servers under other names that had their keys still have them. */
    twostate lemma {:induction false} OthersKeepKeys(name: string)
      requires OnlyKeysOf(name, old(files), old(keypairs), files, keypairs)
      ensures forall n :: n != name ==> old(HasKeys(n)) == HasKeys(n)
    {
      forall n | n != name ensures old(HasKeys(n)) == HasKeys(n) {
        if KeyFile(n) == KeyFile(name) { KeyFilesAreInjective(n, name); }
      }
    }

    /** No other name of the set has this key file. */
    ghost method OtherKeyFiles(key: string, left: set<string>)
      requires key !in left
      ensures forall k :: k in left ==> KeyFile(k) != KeyFile(key)
    {
      forall k | k in left ensures KeyFile(k) != KeyFile(key) {
        if KeyFile(k) == KeyFile(key) { KeyFilesAreInjective(k, key); }
      }
    }

    /** The name's keypair and key file can be made; an entry that is no file cannot be removed. */
    predicate CanSetUp(name: string, a: Answers) reads this {
      && (KeyFile(name) in files ==> files[KeyFile(name)].isFile)
      && name !in keypairs && a.keypair.Done? && a.keyFile.Done?
    }

    /**
     * A new keypair and key file for the server. A name whose keypair exists is refused by the
     * cloud, but only after an existing key file of that name has been removed.
     */
    method SetupKeypair(id: InstanceID, a: Answers) returns (ok: bool)
      modifies this`files, this`keypairs
      ensures ok <==> old(CanSetUp(id.Name(), a))
      ensures ok ==> keypairs == old(keypairs) + {id.Name()}
      ensures ok ==> files == old(files)[KeyFile(id.Name()) := Entry(true, now)]
      ensures !ok && old(HasKeys(id.Name())) ==> files == old(files) - {KeyFile(id.Name())} && keypairs == old(keypairs)
      ensures OnlyKeysOf(id.Name(), old(files), old(keypairs), files, keypairs)
    {
      var path := KeyFile(id.Name());
      if path in files {
        if !files[path].isFile { return false; }
        files := files - {path};
      }
      if id.Name() in keypairs { return false; }
      if a.keypair.Happened() { keypairs := keypairs + {id.Name()}; }
      if !a.keypair.Done? { return false; }
      if a.keyFile.Happened() { files := files[path := Entry(true, now)]; }
      ok := a.keyFile.Done?;
    }

    /** The key file goes only when the cloud confirms that it deleted the keypair. */
    method DeleteKeypair(id: InstanceID, answer: KeypairDeletion) returns (r: KeypairDeletion)
      modifies this`files, this`keypairs
      ensures keypairs == if answer.TakesKeypair() then old(keypairs) - {id.Name()} else old(keypairs)
      ensures files == if r.Deleted? then old(files) - {KeyFile(id.Name())} else old(files)
      ensures r.Deleted? <==>
                answer.Deleted? && (KeyFile(id.Name()) in old(files) ==> old(files[KeyFile(id.Name())].isFile))
      ensures r.UnlinkRaised? <==> (answer.Deleted? || answer.UnlinkRaised?) && !r.Deleted?
      ensures OnlyKeysOf(id.Name(), old(files), old(keypairs), files, keypairs)
    {
      r := answer;
      if !answer.TakesKeypair() { return; }
      keypairs := keypairs - {id.Name()};
      if answer.Errored? { return; }
      var path := KeyFile(id.Name());
      if answer.UnlinkRaised? || (path in files && !files[path].isFile) { return UnlinkRaised; }
      files := files - {path};
    }

    /** The keys are touched only once the cloud has accepted the deletion of the server. */
    method DeleteInstance(id: InstanceID, deletion: Call, answer: KeypairDeletion) returns (ok: bool, deleted: bool)
      modifies this`files, this`keypairs, this`servers
      ensures old(Valid()) ==> Valid()
      ensures ok <==> deletion.Done? && !UnlinkFails(old(files), id.Name(), answer)
      ensures ok ==> deleted == (id.Name() in old(servers))
      ensures ok && answer.Deleted? ==> files == old(files) - {KeyFile(id.Name())}
      ensures servers == if deletion.Happened() then old(servers) - {id.Name()} else old(servers)
      ensures !deletion.Done? || !answer.TakesKeypair() ==> files == old(files) && keypairs == old(keypairs)
      ensures deletion.Done? && answer.TakesKeypair() ==> keypairs == old(keypairs) - {id.Name()}
      ensures OnlyKeysOf(id.Name(), old(files), old(keypairs), files, keypairs)
    {
      deleted := id.Name() in servers;
      if deletion.Happened() { servers := servers - {id.Name()}; }
      if !deletion.Done? { return false, false; }
      label accepted:
      var r := DeleteKeypair(id, answer);
      OthersKeepKeys@accepted(id.Name());
      ok := !r.UnlinkRaised?;
    }

    /**
     * Launching keeps the keys of every server but in two cases, and exactly in those two it loses
     * some: the name is that of a live server, whose key file is taken away, or a creation that
     * failed has left its server and the keys made for it are deleted.
     */
    method LaunchInstance(id: InstanceID, a: Answers) returns (launched: bool)
      requires Valid() && NameHasPrefix(prefix, id.Name())
      modifies this`files, this`keypairs, this`servers
      ensures Valid() <==>
                id.Name() !in old(servers) && !(old(CanSetUp(id.Name(), a)) && a.LeaveServer() && a.DeleteKeys())
      ensures launched <==> old(CanSetUp(id.Name(), a)) && a.creation.Created?
      ensures launched ==> HasKeys(id.Name())
      ensures id.Name() in old(servers) ==>
                !launched && files == old(files) - {KeyFile(id.Name())} && keypairs == old(keypairs)
      ensures old(CanSetUp(id.Name(), a)) && a.DeleteKeys() ==> id.Name() !in keypairs
      ensures servers == old(servers) + if launched || (old(CanSetUp(id.Name(), a)) && a.LeaveServer())
                                        then {id.Name()} else {}
      ensures OnlyKeysOf(id.Name(), old(files), old(keypairs), files, keypairs)
    {
      var ok := SetupKeypair(id, a);
      OthersKeepKeys(id.Name());
      if !ok { return false; }
      launched := a.creation.Created?;
      match a.creation
      case Created => servers := servers + {id.Name()};
      case TimedOut(server) =>
        if server.Present? { servers := servers + {id.Name()}; }
        var reached, deleted := DeleteInstance(id, a.deletion, a.keypairDeletion);
        if server.Late? { servers := servers + {id.Name()}; }
      case Failed(left) =>
        if left { servers := servers + {id.Name()}; }
        var r := DeleteKeypair(id, a.keypairDeletion);
        OthersKeepKeys(id.Name());
      case Escaped(left) =>
        if left { servers := servers + {id.Name()}; }
    }

    // -------------------------------------------------------------- expiry

    /** Key files of this prefix that are young enough to be spared. */
    function FreshKeyFiles(): set<string> reads this {
      set f | f in files && OwnKeyFile(prefix, f, files[f]) && IsFresh(files[f], now)
    }

    /** Unlinks the key files of this prefix but the excluded ones; the first unlink that raises ends it. */
    method CleanupKeyFiles(excluded: set<string>, undeletable: set<string>) returns (ok: bool)
      modifies this`files
      ensures ok <==> forall f :: f in old(files) && f !in WithoutExpired(prefix, old(files), excluded) ==>
                                    f !in undeletable
      ensures ok ==> files == WithoutExpired(prefix, old(files), excluded)
      ensures forall f :: f in files ==> f in old(files) && files[f] == old(files)[f]
      ensures WithoutExpired(prefix, old(files), excluded).Keys <= files.Keys
    {
      var left := files.Keys;
      while left != {}
        invariant left <= files.Keys <= old(files).Keys
        invariant forall f :: f in files ==> files[f] == old(files)[f]
        invariant forall f :: f in old(files) && f !in left ==>
                                (f in files <==> !OwnKeyFile(prefix, f, old(files)[f]) || f in excluded)
        invariant forall f :: f in old(files) && f !in files ==> f !in undeletable
        decreases left
      {
        var f :| f in left;
        left := left - {f};
        if OwnKeyFile(prefix, f, files[f]) && f !in excluded {
          if f in undeletable { return false; }
          files := files - {f};
        }
      }
      ok := true;
    }

    /** The keypairs that are not to be deleted, or that the cloud does not delete. */
    function KeypairsLeft(keypairs: set<string>, excluded: set<string>, a: ExpiryAnswers): set<string> {
      set k | k in keypairs && !(Expirable(prefix, k, excluded) && a.Deletion(k).TakesKeypair())
    }

    /**
     * Deletes the keypairs of this prefix but the excluded ones, and with each the key file of its
     * name. A deletion that the cloud refuses is skipped; an unlink that raises ends the pass.
     */
    method CleanupKeypairs(excluded: set<string>, a: ExpiryAnswers) returns (ok: bool)
      modifies this`files, this`keypairs
      ensures ok <==> a.keypairsListed && forall k :: k in old(keypairs) && Expirable(prefix, k, excluded) ==>
                                                        !UnlinkFails(old(files), k, a.Deletion(k))
      ensures ok ==> keypairs == KeypairsLeft(old(keypairs), excluded, a)
      ensures ok ==> forall k :: k in old(keypairs) && Expirable(prefix, k, excluded) && a.Deletion(k).Deleted? ==>
                                   KeyFile(k) !in files
      ensures keypairs <= old(keypairs)
      ensures forall k :: k in old(keypairs) && !Expirable(prefix, k, excluded) ==> k in keypairs
      ensures forall f :: f in files ==> f in old(files) && files[f] == old(files)[f]
      ensures forall f :: f in old(files) && f !in files ==>
                            old(files)[f].isFile && IsKeyOfExpired(prefix, f, old(keypairs), excluded)
    {
      if !a.keypairsListed { return false; }
      var left := keypairs;
      while left != {}
        invariant left <= keypairs <= old(keypairs)
        invariant keypairs == KeypairsLeft(old(keypairs), excluded, a) + left
        invariant forall f :: f in files ==> f in old(files) && files[f] == old(files)[f]
        invariant forall f :: f in old(files) && f !in files ==>
                                old(files)[f].isFile && IsKeyOfExpired(prefix, f, old(keypairs), excluded)
        invariant forall k :: k in left && KeyFile(k) in old(files) ==> KeyFile(k) in files
        invariant forall k :: k in old(keypairs) - left && Expirable(prefix, k, excluded) ==>
                                && !UnlinkFails(old(files), k, a.Deletion(k))
                                && (a.Deletion(k).Deleted? ==> KeyFile(k) !in files)
        decreases left
      {
        var key :| key in left;
        left := left - {key};
        if Expirable(prefix, key, excluded) {
          ParseThenPrint(prefix, key);
          OtherKeyFiles(key, left);
          var r := DeleteKeypair(BuildFromName(prefix, key).value, a.Deletion(key));
          if r.UnlinkRaised? { return false; }
        }
      }
      ok := true;
    }

    /** Expiry at this clock reading, given the listed servers. */
    method DeleteUnlistedKeys(listed: set<string>, a: ExpiryAnswers) returns (ok: bool)
      modifies this`files, this`keypairs
      ensures ok <==> Completes(prefix, old(files), old(keypairs), listed, now, a)
      ensures ok ==> files == KeptFiles(prefix, old(files), listed, now)
      ensures ok ==> keypairs == set k | k in old(keypairs) && (k in KeptKeypairs(
                                   prefix, old(files), old(keypairs), listed, now) || !a.Deletion(k).TakesKeypair())
      ensures KeptKeypairs(prefix, old(files), old(keypairs), listed, now) <= keypairs <= old(keypairs)
      ensures KeptFiles(prefix, old(files), listed, now).Keys <= files.Keys <= old(files).Keys
      ensures forall f :: f in files ==> files[f] == old(files)[f]
    {
      var excluded := (set name | name in listed && NameHasPrefix(prefix, name) :: KeyFile(name)) + FreshKeyFiles();
      var names := set f | f in excluded :: RemoveSuffix(f);
      ExcludedAreSpared(prefix, files, listed, now, excluded);
      ok := CleanupKeyFiles(excluded, a.undeletable);
      if !ok { return; }
      ghost var left := files;
      ExpiredKeysHaveNoFile(prefix, left, excluded, names);
      UnlinkFailsStill(prefix, old(files), left, names, excluded);
      hide Spared, KeyFile, RemoveSuffix, OwnKeyFile, IsFresh;
      ok := CleanupKeypairs(names, a);
      assert files == left;
    }

    /**
     * Deletes the keys of this prefix that belong to no listed server and are not fresh. The server
     * list comes first and the clock is read after it; the list may omit a server whose key file is
     * then fresh. A server keeps its keys exactly if it is listed or its key file has not outlived
     * the minimum age by the time the clock is read.
     */
    method DeleteExpiredKeys(a: ExpiryAnswers) returns (ok: bool, listed: set<string>)
      modifies this`files, this`keypairs, this`now
      ensures now == old(now) + a.elapsed
      ensures servers - a.hidden <= listed <= servers
      ensures forall name :: name in servers && NameHasPrefix(prefix, name) && name !in listed ==>
                KeyFile(name) in old(files) && IsYoung(old(files)[KeyFile(name)].mtime, old(now), 0)
      ensures forall name :: name in servers && NameHasPrefix(prefix, name) && old(HasKeys(name)) ==>
                Outlasts(name, listed, old(files), old(now), now) ==> HasKeys(name)
      ensures ok ==> forall name :: name in servers && NameHasPrefix(prefix, name) && old(HasKeys(name)) ==>
                                      (HasKeys(name) <==> Outlasts(name, listed, old(files), old(now), now))
      ensures ok <==> a.serversListed && Completes(prefix, old(files), old(keypairs), listed, now, a)
      ensures ok ==> files == KeptFiles(prefix, old(files), listed, now)
      ensures ok ==> keypairs == set k | k in old(keypairs) && (k in KeptKeypairs(
                                   prefix, old(files), old(keypairs), listed, now) || !a.Deletion(k).TakesKeypair())
      ensures KeptKeypairs(prefix, old(files), old(keypairs), listed, now) <= keypairs <= old(keypairs)
      ensures KeptFiles(prefix, old(files), listed, now).Keys <= files.Keys <= old(files).Keys
      ensures forall f :: f in files ==> files[f] == old(files)[f]
    {
      listed := set name | name in servers && (name !in a.hidden || KeyFile(name) !in FreshKeyFiles());
      now := now + a.elapsed;
      if !a.serversListed { return false, listed; }
      ok := DeleteUnlistedKeys(listed, a);
      forall name | name in servers && NameHasPrefix(prefix, name) && old(HasKeys(name))
        ensures Outlasts(name, listed, old(files), old(now), now) ==> HasKeys(name)
        ensures ok && HasKeys(name) ==> Outlasts(name, listed, old(files), old(now), now)
      {
        ExpiryIsExact(prefix, old(files), old(keypairs), listed, old(now), now, name);
      }
    }
  }

  // ---------------------------------------------------------------- keys that a launch loses

  /** Of two launches under one name the second fails and takes away the first one's key file. */
  method RelaunchLosesAKey(prefix: string, token: string) returns (store: KeyStore)
    ensures var name := InstanceID(prefix, token, "").Name();
            store.servers == {name} && name in store.keypairs && KeyFile(name) !in store.files && !store.Valid()
  {
    store := new KeyStore(prefix);
    var id := InstanceID(prefix, token, "");
    assert id.Name()[..|prefix| + 1] == prefix + "-";
    var launched := store.LaunchInstance(id, ALL_WELL);
    assert id.Name() in store.keypairs;
    launched := store.LaunchInstance(id, ALL_WELL);
  }

  /** A first launch fails, its server is there all the same, and its keys are deleted. */
  method FailedLaunchLosesKeys(prefix: string, token: string) returns (store: KeyStore)
    ensures var name := InstanceID(prefix, token, "").Name();
            store.servers == {name} && name !in store.keypairs && !store.Valid()
  {
    store := new KeyStore(prefix);
    var id := InstanceID(prefix, token, "");
    assert id.Name()[..|prefix| + 1] == prefix + "-";
    var launched := store.LaunchInstance(id, ALL_WELL.(creation := Failed(true)));
  }

  // ---------------------------------------------------------------- properties of expiry

  /** At the same clock and server list there is nothing left to expire. */
  lemma {:induction false} ExpiryIsIdempotent(
    prefix: string, files: map<string, Entry>, keypairs: set<string>, listed: set<string>, now: int)
    ensures var f := KeptFiles(prefix, files, listed, now);
            var k := KeptKeypairs(prefix, files, keypairs, listed, now);
            KeptFiles(prefix, f, listed, now) == f && KeptKeypairs(prefix, f, k, listed, now) == k
  {
    var f := KeptFiles(prefix, files, listed, now);
    forall g ensures Spared(prefix, files, listed, now, g) <==> Spared(prefix, f, listed, now, g) {
    }
  }

  /**
   * Expiry of one unit leaves every key of another unit alone: no name belongs to both.
   */
  lemma {:induction false} OtherUnitsKeysSurvive(
    u: UnitName, w: UnitName, files: map<string, Entry>, keypairs: set<string>, listed: set<string>, now: int,
    name: string)
    requires u.Valid() && w.Valid() && u != w && NameHasPrefix(w.Prefix(), name)
    ensures KeyFile(name) in files ==> KeyFile(name) in KeptFiles(u.Prefix(), files, listed, now)
    ensures name in keypairs ==> name in KeptKeypairs(u.Prefix(), files, keypairs, listed, now)
  {
    if NameHasPrefix(u.Prefix(), name) { OwnershipIsUnambiguous(u, w, name); }
    if NameHasPrefix(u.Prefix(), KeyFile(name)) { OwnershipIsUnambiguous(u, w, KeyFile(name)); }
  }
}
