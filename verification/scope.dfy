/** The `scope` parameter of the authorize request: the granted flags as
    canonical tokens, in a fixed order, separated by single spaces. */
module Scope {
  import opened Enums
  import opened Text

  /** The order in which `GetAuthorizeString` tests the flags. */
  const ScopeOrder: seq<(TwitchScope, string)> := [
    (AlertsCreate, "alerts.create"),
    (DonationsCreate, "donations.create"),
    (DonationsRead, "donations.read"),
    (LegacyToken, "legacy.token")
  ]

  /** The tokens of the flags set in `scope`, in the order given. */
  function Granted(scope: TwitchScope, order: seq<(TwitchScope, string)>): seq<string>
    decreases |order|
  {
    if |order| == 0 then []
    else
      var last := order[|order| - 1];
      Granted(scope, order[..|order| - 1]) + (if HasFlag(scope, last.0) then [last.1] else [])
  }

  /** The scope string as `GetAuthorizeString` builds it: four flag tests,
      each appending its token after a space unless nothing precedes it. */
  function ScopeString(scope: TwitchScope): string {
    var s1 := if HasFlag(scope, AlertsCreate) then AppendToken("", "alerts.create") else "";
    var s2 := if HasFlag(scope, DonationsCreate) then AppendToken(s1, "donations.create") else s1;
    var s3 := if HasFlag(scope, DonationsRead) then AppendToken(s2, "donations.read") else s2;
    if HasFlag(scope, LegacyToken) then AppendToken(s3, "legacy.token") else s3
  }

  /** The granted tokens, spelled out flag by flag. */
  lemma GrantedUnfolds(scope: TwitchScope)
    ensures Granted(scope, ScopeOrder) ==
      (if HasFlag(scope, AlertsCreate) then ["alerts.create"] else [])
      + (if HasFlag(scope, DonationsCreate) then ["donations.create"] else [])
      + (if HasFlag(scope, DonationsRead) then ["donations.read"] else [])
      + (if HasFlag(scope, LegacyToken) then ["legacy.token"] else [])
  {
    var o1, o2, o3 := ScopeOrder[..1], ScopeOrder[..2], ScopeOrder[..3];
    assert o1[..0] == [] && o2[..1] == o1 && o3[..2] == o2 && ScopeOrder[..3] == o3;
    assert o1[0] == (AlertsCreate, "alerts.create");
    assert o2[1] == (DonationsCreate, "donations.create");
    assert o3[2] == (DonationsRead, "donations.read");
    assert ScopeOrder[3] == (LegacyToken, "legacy.token");
    assert Granted(scope, o1[..0]) == [];
    var g1 := Granted(scope, o1);
    assert g1 == [] + (if HasFlag(scope, AlertsCreate) then ["alerts.create"] else []);
    var g2 := Granted(scope, o2);
    assert g2 == g1 + (if HasFlag(scope, DonationsCreate) then ["donations.create"] else []);
    var g3 := Granted(scope, o3);
    assert g3 == g2 + (if HasFlag(scope, DonationsRead) then ["donations.read"] else []);
    assert Granted(scope, ScopeOrder) == g3 + (if HasFlag(scope, LegacyToken) then ["legacy.token"] else []);
  }

  /** Tokens taken from an order of non-empty, space-free tokens are
      themselves non-empty and space-free. */
  lemma {:induction false} GrantedWellFormed(scope: TwitchScope, order: seq<(TwitchScope, string)>)
    requires forall i :: 0 <= i < |order| ==> order[i].1 != "" && ' ' !in order[i].1
    ensures AllNonEmpty(Granted(scope, order)) && NoSpaces(Granted(scope, order))
    decreases |order|
  {
    if |order| > 0 {
      GrantedWellFormed(scope, order[..|order| - 1]);
    }
  }

  /** Each token is among the granted ones exactly when its flag is set. */
  lemma GrantedContains(scope: TwitchScope)
    ensures var granted := Granted(scope, ScopeOrder);
      && ("alerts.create" in granted <==> HasFlag(scope, AlertsCreate))
      && ("donations.create" in granted <==> HasFlag(scope, DonationsCreate))
      && ("donations.read" in granted <==> HasFlag(scope, DonationsRead))
      && ("legacy.token" in granted <==> HasFlag(scope, LegacyToken))
      && (granted == [] <==> !HasFlag(scope, AlertsCreate) && !HasFlag(scope, DonationsCreate)
                             && !HasFlag(scope, DonationsRead) && !HasFlag(scope, LegacyToken))
  {
    GrantedUnfolds(scope);
  }

  /** One flag test of the builder extends the joined prefix by one step. */
  lemma ScopeStep(acc: string, prefix: seq<string>, granted: bool, token: string)
    requires AllNonEmpty(prefix) && token != ""
    requires acc == JoinSpace(prefix)
    ensures (if granted then AppendToken(acc, token) else acc) == JoinSpace(prefix + (if granted then [token] else []))
    ensures AllNonEmpty(prefix + (if granted then [token] else []))
  {
    if granted {
      AppendTokenJoins(prefix, token);
    } else {
      assert prefix + [] == prefix;
    }
  }

  /** The built string is the granted tokens joined by single spaces. */
  lemma {:induction false} ScopeStringIsJoin(scope: TwitchScope)
    ensures ScopeString(scope) == JoinSpace(Granted(scope, ScopeOrder))
  {
    GrantedUnfolds(scope);
    var a := HasFlag(scope, AlertsCreate);
    var b := HasFlag(scope, DonationsCreate);
    var c := HasFlag(scope, DonationsRead);
    var d := HasFlag(scope, LegacyToken);
    var p1 := if a then ["alerts.create"] else [];
    var p2 := p1 + (if b then ["donations.create"] else []);
    var p3 := p2 + (if c then ["donations.read"] else []);
    var p4 := p3 + (if d then ["legacy.token"] else []);
    var s1 := if a then AppendToken("", "alerts.create") else "";
    var s2 := if b then AppendToken(s1, "donations.create") else s1;
    var s3 := if c then AppendToken(s2, "donations.read") else s2;
    ScopeStep("", [], a, "alerts.create");
    assert [] + p1 == p1;
    ScopeStep(s1, p1, b, "donations.create");
    ScopeStep(s2, p2, c, "donations.read");
    ScopeStep(s3, p3, d, "legacy.token");
  }

  /** Reading the scope string back: splitting it on spaces gives exactly
      the granted tokens, so each token is present iff its flag is set; the
      string is empty iff no flag is set and never starts or ends with a
      space. */
  lemma ScopeStringTokens(scope: TwitchScope)
    ensures var s := ScopeString(scope);
      var granted := Granted(scope, ScopeOrder);
      && (granted != [] ==> SplitSpace(s) == granted)
      && ("alerts.create" in SplitSpace(s) <==> HasFlag(scope, AlertsCreate))
      && ("donations.create" in SplitSpace(s) <==> HasFlag(scope, DonationsCreate))
      && ("donations.read" in SplitSpace(s) <==> HasFlag(scope, DonationsRead))
      && ("legacy.token" in SplitSpace(s) <==> HasFlag(scope, LegacyToken))
      && (s == "" <==> granted == [])
      && (s == "" <==> !HasFlag(scope, AlertsCreate) && !HasFlag(scope, DonationsCreate)
                       && !HasFlag(scope, DonationsRead) && !HasFlag(scope, LegacyToken))
      && (s != "" ==> s[0] != ' ' && s[|s| - 1] != ' ')
  {
    var s := ScopeString(scope);
    var granted := Granted(scope, ScopeOrder);
    ScopeStringIsJoin(scope);
    GrantedWellFormed(scope, ScopeOrder);
    JoinedTokens(granted);
    GrantedContains(scope);
    if granted == [] {
      assert SplitSpace(s) == [""];
    } else {
      assert SplitSpace(s) == granted;
    }
  }
}
