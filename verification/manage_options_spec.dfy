/** An order-free description of what `manage_options` leaves behind, and
    the proof that the loop produces exactly that. */
module ManageOptionsSpec {
  import opened Wrappers
  import opened Sections
  import opened ConfigOptions
  import opened ScraperConfig

  /** The deprecated option, if any, that `k` replaces. */
  ghost function Renamer(k: string): (r: Option<string>)
    ensures r.Some? ==> r.value in DEPRECATED_OPTIONS && DEPRECATED_OPTIONS[r.value] == k
    ensures r.None? ==> forall d :: d in DEPRECATED_OPTIONS ==> DEPRECATED_OPTIONS[d] != k
  {
    if exists d :: d in DEPRECATED_OPTIONS && DEPRECATED_OPTIONS[d] == k then
      var d :| d in DEPRECATED_OPTIONS && DEPRECATED_OPTIONS[d] == k;
      Some(d)
    else
      None
  }

  /** A deprecated option is the one its replacement is renamed from. */
  lemma RenamerOf(d: string)
    requires d in DEPRECATED_OPTIONS
    ensures Renamer(DEPRECATED_OPTIONS[d]) == Some(d)
  {
    TablesConsistent();
  }

  /** What ConfigParser hands `manage_options`: distinct names, each an option
      of the "options" section. */
  ghost predicate WellFormedSnapshot(c: Sections, s: seq<string>)
  {
    && (forall i, j :: 0 <= i < j < |s| ==> s[i] != s[j])
    && (forall i :: 0 <= i < |s| ==> s[i] in Section(c, OPTIONS))
  }

  ghost predicate HasUnknown(s: seq<string>) {
    exists u :: u in s && !IsKnown(u)
  }

  ghost predicate HasDeprecated(s: seq<string>) {
    exists d :: d in s && IsDeprecated(d)
  }

  /** The option `k` after the loop: the value of the deprecated option it
      replaces, if that was processed; gone, if `k` itself was processed and
      is unknown or deprecated; otherwise untouched. */
  ghost function OptionsAfter(c: Sections, s: seq<string>, k: string): Option<string>
  {
    var opts := Section(c, OPTIONS);
    var r := Renamer(k);
    if r.Some? && r.value in s then Lookup(opts, r.value)
    else if k in s && LeavesOptions(k) then None
    else Lookup(opts, k)
  }

  /** The "unknown" section after the loop gains every processed unknown option. */
  ghost function UnknownAfter(c: Sections, s: seq<string>, k: string): Option<string>
  {
    if k in s && !IsKnown(k) then Lookup(Section(c, OPTIONS), k)
    else Lookup(Section(c, UNKNOWN), k)
  }

  /** The "deprecated" section after the loop gains every processed deprecated option. */
  ghost function DeprecatedAfter(c: Sections, s: seq<string>, k: string): Option<string>
  {
    if k in s && IsDeprecated(k) then Lookup(Section(c, OPTIONS), k)
    else Lookup(Section(c, DEPRECATED), k)
  }

  /** `c'` is what processing the names in `s` turns `c` into. Only the set of
      names in `s` matters, not their order. */
  ghost predicate Manages(c: Sections, s: seq<string>, c': Sections)
  {
    && (OPTIONS in c' <==> OPTIONS in c)
    && (forall k :: Lookup(Section(c', OPTIONS), k) == OptionsAfter(c, s, k))
    && (forall k :: Lookup(Section(c', UNKNOWN), k) == UnknownAfter(c, s, k))
    && (forall k :: Lookup(Section(c', DEPRECATED), k) == DeprecatedAfter(c, s, k))
    && (UNKNOWN in c' <==> UNKNOWN in c || HasUnknown(s))
    && (DEPRECATED in c' <==> DEPRECATED in c || HasDeprecated(s))
    && (forall n :: !IsManaged(n) ==> (n in c' <==> n in c))
    && (forall n :: n in c' && !IsManaged(n) ==> c'[n] == c[n])
  }

  lemma ManagesEmpty(c: Sections)
    ensures Manages(c, [], c)
  {
  }

  /** An unknown option moves from "options" to "unknown". */
  lemma StepUnknown(c: Sections, s: string)
    requires s in Section(c, OPTIONS) && !IsKnown(s)
    ensures ManageOption(c, s).Success?
    ensures Manages(c, [s], ManageOption(c, s).value)
  {
  }

  /** A deprecated option is archived and renamed to its replacement. */
  lemma StepDeprecated(c: Sections, s: string)
    requires s in Section(c, OPTIONS) && IsDeprecated(s)
    ensures ManageOption(c, s).Success?
    ensures Manages(c, [s], ManageOption(c, s).value)
  {
  }

  /** An accepted option is left where it is. */
  lemma StepAccepted(c: Sections, s: string)
    requires s in Section(c, OPTIONS) && IsAccepted(s) && !IsDeprecated(s)
    ensures ManageOption(c, s) == Success(c)
    ensures Manages(c, [s], c)
  {
  }

  /** One iteration succeeds on a present option and does what the closed form says. */
  lemma ManageOptionManages(c: Sections, s: string)
    requires s in Section(c, OPTIONS)
    ensures ManageOption(c, s).Success?
    ensures Manages(c, [s], ManageOption(c, s).value)
  {
    if !IsKnown(s) {
      StepUnknown(c, s);
    } else if IsDeprecated(s) {
      StepDeprecated(c, s);
    } else {
      StepAccepted(c, s);
    }
  }

  lemma ComposeOptions(c: Sections, s: string, rest: seq<string>, c1: Sections, c': Sections)
    requires s !in rest
    requires forall k :: Lookup(Section(c1, OPTIONS), k) == OptionsAfter(c, [s], k)
    requires forall k :: Lookup(Section(c', OPTIONS), k) == OptionsAfter(c1, rest, k)
    ensures forall k :: Lookup(Section(c', OPTIONS), k) == OptionsAfter(c, [s] + rest, k)
  {
  }

  lemma ComposeUnknown(c: Sections, s: string, rest: seq<string>, c1: Sections, c': Sections)
    requires s !in rest
    requires forall k :: Lookup(Section(c1, OPTIONS), k) == OptionsAfter(c, [s], k)
    requires forall k :: Lookup(Section(c1, UNKNOWN), k) == UnknownAfter(c, [s], k)
    requires forall k :: Lookup(Section(c', UNKNOWN), k) == UnknownAfter(c1, rest, k)
    ensures forall k :: Lookup(Section(c', UNKNOWN), k) == UnknownAfter(c, [s] + rest, k)
  {
  }

  lemma ComposeDeprecated(c: Sections, s: string, rest: seq<string>, c1: Sections, c': Sections)
    requires s !in rest
    requires forall k :: Lookup(Section(c1, OPTIONS), k) == OptionsAfter(c, [s], k)
    requires forall k :: Lookup(Section(c1, DEPRECATED), k) == DeprecatedAfter(c, [s], k)
    requires forall k :: Lookup(Section(c', DEPRECATED), k) == DeprecatedAfter(c1, rest, k)
    ensures forall k :: Lookup(Section(c', DEPRECATED), k) == DeprecatedAfter(c, [s] + rest, k)
  {
  }

  /** Processing `s` and then `rest` is processing `[s] + rest`. */
  lemma ManagesCompose(c: Sections, s: string, rest: seq<string>, c1: Sections, c': Sections)
    requires s !in rest
    requires Manages(c, [s], c1)
    requires Manages(c1, rest, c')
    ensures Manages(c, [s] + rest, c')
  {
    ComposeOptions(c, s, rest, c1, c');
    ComposeUnknown(c, s, rest, c1, c');
    ComposeDeprecated(c, s, rest, c1, c');
    assert HasUnknown([s] + rest) <==> HasUnknown([s]) || HasUnknown(rest) by {
      if HasUnknown([s] + rest) {
        var u :| u in [s] + rest && !IsKnown(u);
        assert u in [s] || u in rest;
      }
      if HasUnknown([s]) {
        var u :| u in [s] && !IsKnown(u);
        assert u in [s] + rest;
      }
      if HasUnknown(rest) {
        var u :| u in rest && !IsKnown(u);
        assert u in [s] + rest;
      }
    }
    assert HasDeprecated([s] + rest) <==> HasDeprecated([s]) || HasDeprecated(rest) by {
      if HasDeprecated([s] + rest) {
        var u :| u in [s] + rest && IsDeprecated(u);
        assert u in [s] || u in rest;
      }
      if HasDeprecated([s]) {
        var u :| u in [s] && IsDeprecated(u);
        assert u in [s] + rest;
      }
      if HasDeprecated(rest) {
        var u :| u in rest && IsDeprecated(u);
        assert u in [s] + rest;
      }
    }
  }

  /** After one iteration the rest of the snapshot is still well formed. */
  lemma SnapshotStaysWellFormed(c: Sections, s: seq<string>, c1: Sections)
    requires |s| > 0
    requires WellFormedSnapshot(c, s)
    requires Manages(c, [s[0]], c1)
    ensures WellFormedSnapshot(c1, s[1..])
  {
    forall i | 0 <= i < |s[1..]|
      ensures s[1..][i] in Section(c1, OPTIONS)
    {
      var k := s[i + 1];
      assert k != s[0];
      assert Lookup(Section(c1, OPTIONS), k) == OptionsAfter(c, [s[0]], k);
    }
  }

  /** The loop of `manage_options`, run over a snapshot ConfigParser could
      have produced, never raises and yields the closed form. */
  lemma {:induction false} ManageOptionsMeetsClosedForm(c: Sections, s: seq<string>)
    requires WellFormedSnapshot(c, s)
    ensures ManageOptions(c, s).Success?
    ensures Manages(c, s, ManageOptions(c, s).value)
    decreases |s|
  {
    if s == [] {
      ManagesEmpty(c);
    } else {
      ManageOptionManages(c, s[0]);
      var c1 := ManageOption(c, s[0]).value;
      SnapshotStaysWellFormed(c, s, c1);
      ManageOptionsMeetsClosedForm(c1, s[1..]);
      assert s == [s[0]] + s[1..];
      assert s[0] !in s[1..];
      ManagesCompose(c, s[0], s[1..], c1, ManageOptions(c1, s[1..]).value);
    }
  }

  /** The closed form pins the result down: snapshots with the same names
      give the same configuration. */
  lemma ManagesUnique(c: Sections, s1: seq<string>, s2: seq<string>, a: Sections, b: Sections)
    requires forall x :: x in s1 <==> x in s2
    requires Manages(c, s1, a)
    requires Manages(c, s2, b)
    ensures a == b
  {
    assert HasUnknown(s1) <==> HasUnknown(s2);
    assert HasDeprecated(s1) <==> HasDeprecated(s2);
    forall k
      ensures Lookup(Section(a, OPTIONS), k) == Lookup(Section(b, OPTIONS), k)
      ensures Lookup(Section(a, UNKNOWN), k) == Lookup(Section(b, UNKNOWN), k)
      ensures Lookup(Section(a, DEPRECATED), k) == Lookup(Section(b, DEPRECATED), k)
    {
      assert OptionsAfter(c, s1, k) == OptionsAfter(c, s2, k);
    }
    LookupExtensional(Section(a, OPTIONS), Section(b, OPTIONS));
    LookupExtensional(Section(a, UNKNOWN), Section(b, UNKNOWN));
    LookupExtensional(Section(a, DEPRECATED), Section(b, DEPRECATED));
    assert a.Keys == b.Keys by {
      forall n ensures n in a <==> n in b {
        if !IsManaged(n) {
          assert n in a <==> n in c;
        }
      }
    }
    forall n | n in a
      ensures a[n] == b[n]
    {
      if !IsManaged(n) {
        assert a[n] == c[n];
      }
    }
  }
}
