/**
 * Instance identifiers (manager/models.py) and the unit prefixes they are built on.
 *
 * An InstanceID is what correlates a cloud VM, an SSH key and a GitHub runner. Its printed
 * name is the only thing the two external stores keep, so listing, key cleanup and deletion
 * by name all rest on printing and parsing being inverse.
 */
module Identifiers {
  import opened Wrappers

  const MAX_NAME_LENGTH := 64
  const SUFFIX_LENGTH := 12

  datatype InstanceID = InstanceID(prefix: string, suffix: string, legacyInfix: string) {
    function Name(): string { prefix + "-" + legacyInfix + suffix }
  }

  datatype IdError = InvalidName(name: string, prefix: string) | NameTooLong(name: string)

  predicate NameHasPrefix(prefix: string, name: string) {
    prefix + "-" <= name
  }

  predicate IsLegacyInfix(s: string) {
    s == "r-" || s == "n-"
  }

  /** The suffix begins with two characters that parsing would take for a legacy infix. */
  predicate LooksLegacy(suffix: string) {
    2 <= |suffix| && IsLegacyInfix(suffix[..2])
  }

  function BuildFromName(prefix: string, name: string): Result<InstanceID, IdError> {
    if NameHasPrefix(prefix, name) then
      var rest := name[|prefix| + 1..];
      if LooksLegacy(rest) then
        Success(InstanceID(prefix, rest[2..], rest[..2]))
      else
        Success(InstanceID(prefix, rest, ""))
    else
      Failure(InvalidName(name, prefix))
  }

  /** Generation of a new identifier; `token` is the random hexadecimal suffix. */
  function Build(prefix: string, token: string): Result<InstanceID, IdError> {
    var id := InstanceID(prefix, token, "");
    if |id.Name()| > MAX_NAME_LENGTH then Failure(NameTooLong(id.Name())) else Success(id)
  }

  predicate IsHexToken(token: string) {
    && |token| == SUFFIX_LENGTH
    && forall i :: 0 <= i < |token| ==> '0' <= token[i] <= '9' || 'a' <= token[i] <= 'f'
  }

  /** The identifiers that survive being printed and parsed again. */
  predicate Canonical(id: InstanceID) {
    IsLegacyInfix(id.legacyInfix) || (id.legacyInfix == "" && !LooksLegacy(id.suffix))
  }

  // ---------------------------------------------------------------- round trips

  /** Parsing succeeds exactly on names of the prefix, and printing the result restores the name. */
  lemma {:induction false} ParseThenPrint(prefix: string, name: string)
    ensures BuildFromName(prefix, name).Success? <==> NameHasPrefix(prefix, name)
    ensures NameHasPrefix(prefix, name) ==>
              var id := BuildFromName(prefix, name).value;
              id.Name() == name && id.prefix == prefix && Canonical(id)
  {
    if NameHasPrefix(prefix, name) {
      var rest := name[|prefix| + 1..];
      assert name == prefix + "-" + rest;
      if LooksLegacy(rest) {
        assert rest == rest[..2] + rest[2..];
        assert name == prefix + "-" + (rest[..2] + rest[2..]) == prefix + "-" + rest[..2] + rest[2..];
      }
    }
  }

  /** Printing then parsing gives the identifier back exactly when it is canonical. */
  lemma {:induction false} PrintThenParse(id: InstanceID)
    ensures BuildFromName(id.prefix, id.Name()) == Success(id) <==> Canonical(id)
  {
    var name := id.Name();
    var rest := id.legacyInfix + id.suffix;
    assert name == id.prefix + "-" + rest;
    assert name[|id.prefix| + 1..] == rest;
    assert NameHasPrefix(id.prefix, name);
    if IsLegacyInfix(id.legacyInfix) {
      assert rest[..2] == id.legacyInfix && rest[2..] == id.suffix;
    } else if id.legacyInfix == "" {
      assert rest == id.suffix;
    } else if !LooksLegacy(rest) {
      assert BuildFromName(id.prefix, name).value.legacyInfix == "";
    }
  }

  /** Two different server names of one prefix are never given the same identifier. */
  lemma {:induction false} ParsingIsInjective(prefix: string, a: string, b: string)
    requires NameHasPrefix(prefix, a) && NameHasPrefix(prefix, b)
    ensures BuildFromName(prefix, a) == BuildFromName(prefix, b) <==> a == b
  {
    ParseThenPrint(prefix, a);
    ParseThenPrint(prefix, b);
  }

  /** Only `r-` and `n-` right after the dash are taken for a legacy infix. */
  lemma {:induction false} ParsedParts(prefix: string, rest: string)
    ensures BuildFromName(prefix, prefix + "-r-" + rest) == Success(InstanceID(prefix, rest, "r-"))
    ensures BuildFromName(prefix, prefix + "-n-" + rest) == Success(InstanceID(prefix, rest, "n-"))
    ensures !("r-" <= rest) && !("n-" <= rest) ==>
              BuildFromName(prefix, prefix + "-" + rest) == Success(InstanceID(prefix, rest, ""))
  {
    hide BuildFromName;
    PrintThenParse(InstanceID(prefix, rest, "r-"));
    PrintThenParse(InstanceID(prefix, rest, "n-"));
    PrintThenParse(InstanceID(prefix, rest, ""));
    assert prefix + "-r-" + rest == prefix + "-" + "r-" + rest;
    assert prefix + "-n-" + rest == prefix + "-" + "n-" + rest;
    assert prefix + "-" + rest == prefix + "-" + "" + rest;
  }

  /** A generated identifier is canonical, belongs to its prefix and fits the cloud's name limit. */
  lemma {:induction false} GeneratedIdsRoundTrip(prefix: string, token: string)
    requires IsHexToken(token)
    ensures Build(prefix, token).Success? <==> |prefix| <= 51
    ensures Build(prefix, token).Success? ==>
              var id := Build(prefix, token).value;
              && id.Name() == prefix + "-" + token
              && |id.Name()| <= 64
              && NameHasPrefix(prefix, id.Name())
              && BuildFromName(prefix, id.Name()) == Success(id)
  {
    var id := InstanceID(prefix, token, "");
    assert id.Name() == prefix + "-" + token;
    assert token[0] != 'r' && token[0] != 'n';
    PrintThenParse(id);
  }

  /** Without the canonical form, two different identifiers can print as one name. */
  lemma {:induction false} PrintingIsNotInjective()
    ensures var a := InstanceID("app-0", "r-x", "");
            var b := InstanceID("app-0", "x", "r-");
            a != b && a.Name() == b.Name() && !Canonical(a) && Canonical(b)
  {
    assert "r-x"[..2] == "r-";
    assert "app-0" + "-" + "" + "r-x" == "app-0" + "-" + "r-" + "x";
    assert InstanceID("app-0", "r-x", "").suffix != InstanceID("app-0", "x", "r-").suffix;
  }

  // ---------------------------------------------------------------- unit prefixes

  /** Replaces every slash by a dash, as the charm does for directories and VM prefixes. */
  function NormalizedUnit(unit: string): (r: string)
    ensures |r| == |unit|
    ensures forall i :: 0 <= i < |unit| ==> r[i] == if unit[i] == '/' then '-' else unit[i]
  {
    if unit == "" then ""
    else [if unit[0] == '/' then '-' else unit[0]] + NormalizedUnit(unit[1..])
  }

  predicate IsLetter(c: char) { 'a' <= c <= 'z' || 'A' <= c <= 'Z' }

  predicate IsDigit(c: char) { '0' <= c <= '9' }

  predicate AllDigits(s: string) { s != "" && forall i :: 0 <= i < |s| ==> IsDigit(s[i]) }

  /** a[i..j] is a maximal dash-free part of a. */
  predicate IsSegment(a: string, i: int, j: int) {
    && 0 <= i <= j <= |a|
    && (i == 0 || a[i - 1] == '-')
    && (j == |a| || a[j] == '-')
    && forall k :: i <= k < j ==> a[k] != '-'
  }

  /** Juju's rule for application names: no slash, and a letter in every dash-separated part. */
  ghost predicate ValidAppName(a: string) {
    && '/' !in a
    && forall i, j :: IsSegment(a, i, j) ==> exists k :: i <= k < j && IsLetter(a[k])
  }

  datatype UnitName = UnitName(app: string, index: string) {
    ghost predicate Valid() { ValidAppName(app) && AllDigits(index) }

    function Print(): string { app + "/" + index }

    function Prefix(): string { NormalizedUnit(Print()) }
  }

  lemma {:induction false} PrefixIsAppDashIndex(u: UnitName)
    requires '/' !in u.app && AllDigits(u.index)
    ensures u.Prefix() == u.app + "-" + u.index
  {
    var p := u.Print();
    forall i | 0 <= i < |p| ensures u.Prefix()[i] == (u.app + "-" + u.index)[i] {
      if i < |u.app| {
        assert p[i] == u.app[i] && u.app[i] in u.app;
      } else if i > |u.app| {
        assert p[i] == u.index[i - |u.app| - 1] && IsDigit(u.index[i - |u.app| - 1]);
      }
    }
  }

  /** The last dash of a prefix is the one before the unit number. */
  lemma {:induction false} LastDashOfPrefix(u: UnitName)
    requires u.Valid()
    ensures var p := u.Prefix();
            && p == u.app + "-" + u.index
            && p[|u.app|] == '-'
            && (forall k :: |u.app| < k < |p| ==> p[k] != '-' && !IsLetter(p[k]))
  {
    PrefixIsAppDashIndex(u);
    var p := u.Prefix();
    forall k | |u.app| < k < |p| ensures p[k] != '-' && !IsLetter(p[k]) {
      assert p[k] == u.index[k - |u.app| - 1] && IsDigit(u.index[k - |u.app| - 1]);
    }
  }

  /** One unit's prefix followed by a dash never starts another unit's longer prefix. */
  lemma {:induction false} NoPrefixInsideAnother(u: UnitName, w: UnitName)
    requires u.Valid() && w.Valid()
    requires |u.Prefix()| < |w.Prefix()|
    ensures !(u.Prefix() + "-" <= w.Prefix() + "-")
  {
    LastDashOfPrefix(u);
    LastDashOfPrefix(w);
    var p, q := u.Prefix(), w.Prefix();
    if p + "-" <= q + "-" {
      assert forall k :: 0 <= k < |p| ==> q[k] == (p + "-")[k] == p[k];
      assert q[|p|] == (q + "-")[|p|] == (p + "-")[|p|] == '-';
      // The unit number of u would be a part of the application name of w.
      assert |p| <= |w.app|;
      assert forall k :: 0 <= k < |p| ==> w.app[k] == p[k];
      assert |p| < |w.app| ==> w.app[|p|] == q[|p|];
      assert forall k :: |u.app| + 1 <= k < |p| ==> !IsLetter(w.app[k]);
      assert IsSegment(w.app, |u.app| + 1, |p|);
      assert false;
    }
  }

  /** Two units never share a normalised name, so never a data directory, service or VM prefix. */
  lemma {:induction false} NormalizationIsInjective(u: UnitName, w: UnitName)
    requires u.Valid() && w.Valid()
    ensures u.Prefix() == w.Prefix() <==> u == w
  {
    LastDashOfPrefix(u);
    LastDashOfPrefix(w);
    var p, q := u.Prefix(), w.Prefix();
    if p == q {
      assert |u.app| == |w.app|;
      assert u.app == p[..|u.app|] == w.app;
      assert u.index == p[|u.app| + 1..] == w.index;
    }
  }

  /** No VM, key or runner name is owned by two units. */
  lemma {:induction false} OwnershipIsUnambiguous(u: UnitName, w: UnitName, name: string)
    requires u.Valid() && w.Valid()
    requires NameHasPrefix(u.Prefix(), name) && NameHasPrefix(w.Prefix(), name)
    ensures u == w
  {
    var p, q := u.Prefix(), w.Prefix();
    if |p| < |q| {
      assert p + "-" == name[..|p| + 1] == (q + "-")[..|p| + 1];
      NoPrefixInsideAnother(u, w);
    } else if |q| < |p| {
      assert q + "-" == name[..|q| + 1] == (p + "-")[..|q| + 1];
      NoPrefixInsideAnother(w, u);
    } else {
      assert p == name[..|p|] == q;
      NormalizationIsInjective(u, w);
    }
  }

  /**
   * Whatever the units are called: some name belongs to two prefixes exactly if one of them,
   * followed by its dash, begins the other.
   */
  lemma {:induction false} OwnershipClashesIff(p: string, q: string)
    ensures (exists name :: NameHasPrefix(p, name) && NameHasPrefix(q, name))
            <==> p + "-" <= q + "-" || q + "-" <= p + "-"
  {
    if p + "-" <= q + "-" || q + "-" <= p + "-" {
      var name := if |p| < |q| then q + "-" else p + "-";
      assert NameHasPrefix(p, name) && NameHasPrefix(q, name);
    }
    if name :| NameHasPrefix(p, name) && NameHasPrefix(q, name) {
      assert p + "-" == name[..|p| + 1] && q + "-" == name[..|q| + 1];
      if |p| <= |q| { assert name[..|q| + 1][..|p| + 1] == name[..|p| + 1]; }
      else { assert name[..|p| + 1][..|q| + 1] == name[..|q| + 1]; }
    }
  }

  /**
   * The letter rule is needed: an application whose last dash-separated part is a number owns a
   * prefix that starts inside another unit's names.
   */
  lemma {:induction false} NumericSegmentBreaksOwnership(u: UnitName, index: string, rest: string)
    requires u.Valid() && AllDigits(index)
    ensures var w := UnitName(u.app + "-" + u.index, index);
            var name := u.app + "-" + u.index + "-" + index + "-" + rest;
            && u != w && !ValidAppName(w.app)
            && NameHasPrefix(u.Prefix(), name) && NameHasPrefix(w.Prefix(), name)
  {
    var w := UnitName(u.app + "-" + u.index, index);
    PrefixIsAppDashIndex(u);
    assert forall k :: |u.app| < k < |w.app| ==> w.app[k] == u.index[k - |u.app| - 1] && IsDigit(w.app[k]);
    assert IsSegment(w.app, |u.app| + 1, |w.app|);
    assert |w.app| > |u.app|;
    assert '/' !in w.app;
    PrefixIsAppDashIndex(w);
  }
}
