/** Properties of `manage_options`, `get` and `save`, and how they interact. */
module ConfigProperties {
  import opened Wrappers
  import opened Sections
  import opened ConfigOptions
  import opened ScraperConfig
  import opened ManageOptionsSpec

  /** Run over every option of the section, `manage_options` leaves only
      accepted options behind: unknown ones move out, deprecated ones are
      replaced by accepted ones. */
  lemma ManageOptionsLeavesOnlyAccepted(c: Sections, s: seq<string>)
    requires WellFormedSnapshot(c, s)
    requires forall k :: k in Section(c, OPTIONS) ==> k in s
    ensures ManageOptions(c, s).Success?
    ensures forall k :: k in Section(ManageOptions(c, s).value, OPTIONS) ==> IsAccepted(k)
  {
    ManageOptionsMeetsClosedForm(c, s);
    TablesConsistent();
    var c' := ManageOptions(c, s).value;
    forall k | k in Section(c', OPTIONS)
      ensures IsAccepted(k)
    {
      assert Lookup(Section(c', OPTIONS), k) == OptionsAfter(c, s, k);
    }
  }

  /** An option that is neither accepted nor deprecated ends up in "unknown"
      under the same name with the same value, and leaves "options". */
  lemma ManageOptionsMovesUnknown(c: Sections, s: seq<string>, u: string)
    requires WellFormedSnapshot(c, s)
    requires u in s && !IsKnown(u)
    ensures ManageOptions(c, s).Success?
    ensures var c' := ManageOptions(c, s).value;
      && u !in Section(c', OPTIONS)
      && UNKNOWN in c'
      && u in c'[UNKNOWN]
      && c'[UNKNOWN][u] == c[OPTIONS][u]
  {
    ManageOptionsMeetsClosedForm(c, s);
    TablesConsistent();
    var c' := ManageOptions(c, s).value;
    assert Lookup(Section(c', OPTIONS), u) == OptionsAfter(c, s, u);
    assert Lookup(Section(c', UNKNOWN), u) == UnknownAfter(c, s, u);
    assert HasUnknown(s);
  }

  /** A deprecated option is archived in "deprecated" with its value, its
      replacement takes that value, and the old name leaves "options". */
  lemma ManageOptionsRenamesDeprecated(c: Sections, s: seq<string>, d: string)
    requires WellFormedSnapshot(c, s)
    requires d in s && IsDeprecated(d)
    ensures ManageOptions(c, s).Success?
    ensures var c' := ManageOptions(c, s).value;
      && d !in Section(c', OPTIONS)
      && DEPRECATED in c'
      && d in c'[DEPRECATED]
      && c'[DEPRECATED][d] == c[OPTIONS][d]
      && OPTIONS in c'
      && DEPRECATED_OPTIONS[d] in c'[OPTIONS]
      && c'[OPTIONS][DEPRECATED_OPTIONS[d]] == c[OPTIONS][d]
  {
    ManageOptionsMeetsClosedForm(c, s);
    RenamerOf(d);
    var c' := ManageOptions(c, s).value;
    assert Lookup(Section(c', OPTIONS), d) == OptionsAfter(c, s, d);
    assert Lookup(Section(c', OPTIONS), DEPRECATED_OPTIONS[d]) == OptionsAfter(c, s, DEPRECATED_OPTIONS[d]);
    assert Lookup(Section(c', DEPRECATED), d) == DeprecatedAfter(c, s, d);
    assert HasDeprecated(s);
  }

  /** An accepted option that no processed deprecated option is renamed to
      keeps its value (or stays unset). */
  lemma ManageOptionsKeepsAccepted(c: Sections, s: seq<string>, k: string)
    requires WellFormedSnapshot(c, s)
    requires IsAccepted(k)
    requires forall d :: d in s && IsDeprecated(d) ==> DEPRECATED_OPTIONS[d] != k
    ensures ManageOptions(c, s).Success?
    ensures Lookup(Section(ManageOptions(c, s).value, OPTIONS), k) == Lookup(Section(c, OPTIONS), k)
  {
    ManageOptionsMeetsClosedForm(c, s);
    TablesConsistent();
    assert Lookup(Section(ManageOptions(c, s).value, OPTIONS), k) == OptionsAfter(c, s, k);
  }

  /** The order in which ConfigParser lists the options does not matter, even
      when a deprecated option and its replacement are both set: the
      deprecated value always wins, because processing an accepted option
      changes nothing. */
  lemma ManageOptionsOrderIndependent(c: Sections, s1: seq<string>, s2: seq<string>)
    requires WellFormedSnapshot(c, s1) && WellFormedSnapshot(c, s2)
    requires forall x :: x in s1 <==> x in s2
    ensures ManageOptions(c, s1) == ManageOptions(c, s2)
  {
    ManageOptionsMeetsClosedForm(c, s1);
    ManageOptionsMeetsClosedForm(c, s2);
    ManagesUnique(c, s1, s2, ManageOptions(c, s1).value, ManageOptions(c, s2).value);
  }

  /** The setup of `__post_init__`, given the option names of the file it read,
      always succeeds and leaves an "options" section of accepted options only. */
  lemma InitialiseNormalises(read: Sections, s: seq<string>)
    requires forall i, j :: 0 <= i < j < |s| ==> s[i] != s[j]
    requires forall k :: k in Section(read, OPTIONS) <==> k in s
    ensures Initialise(read, s).Success?
    ensures OPTIONS in Initialise(read, s).value
    ensures forall k :: k in Initialise(read, s).value[OPTIONS] ==> IsAccepted(k)
  {
    var c := if OPTIONS in read then read else read[OPTIONS := map[]];
    assert Section(c, OPTIONS) == Section(read, OPTIONS);
    ManageOptionsLeavesOnlyAccepted(c, s);
  }

  /** The loop raises when it reaches a name that should leave "options" but
      is no longer there: earlier iterations only ever add replacement
      options, never such a name. */
  lemma {:induction false} ManageOptionsFailsOnMissing(c: Sections, s: seq<string>, i: nat)
    requires i < |s|
    requires LeavesOptions(s[i]) && s[i] !in Section(c, OPTIONS)
    ensures ManageOptions(c, s).Failure?
    decreases i
  {
    if i > 0 && ManageOption(c, s[0]).Success? {
      var c1 := ManageOption(c, s[0]).value;
      if LeavesOptions(s[0]) {
        ManageOptionManages(c, s[0]);
        TablesConsistent();
        assert Lookup(Section(c1, OPTIONS), s[i]) == OptionsAfter(c, [s[0]], s[i]);
      }
      assert s[1..][i - 1] == s[i];
      ManageOptionsFailsOnMissing(c1, s[1..], i - 1);
    }
  }

  /** `manage_options` is not repeatable: its snapshot is not refreshed, so a
      second call over the same names raises on the first one the first call
      moved out of "options". */
  lemma ManageOptionsSecondPassFails(c: Sections, s: seq<string>, x: string)
    requires WellFormedSnapshot(c, s)
    requires x in s && LeavesOptions(x)
    ensures ManageOptions(c, s).Success?
    ensures ManageOptions(ManageOptions(c, s).value, s).Failure?
  {
    ManageOptionsMeetsClosedForm(c, s);
    TablesConsistent();
    var c' := ManageOptions(c, s).value;
    assert Lookup(Section(c', OPTIONS), x) == OptionsAfter(c, s, x);
    var i :| 0 <= i < |s| && s[i] == x;
    ManageOptionsFailsOnMissing(c', s, i);
  }

  /** A configuration built around a given token manager answers `get` only
      from the defaults: exactly the accepted options with a default succeed. */
  lemma FromTokenManagerReadsDefaults(configPath: Option<string>, k: string)
    ensures Get(FromTokenManager(configPath).1, k).Success? <==> IsAccepted(k) && k in DEFAULT_OPTIONS
  {
  }

  /** After `manage_options`, `get` of a processed deprecated name and of its
      replacement both answer the value that was set under the old name. */
  lemma GetAfterManageRenamed(c: Sections, s: seq<string>, d: string)
    requires WellFormedSnapshot(c, s)
    requires d in s && IsDeprecated(d)
    ensures ManageOptions(c, s).Success?
    ensures Get(ManageOptions(c, s).value, DEPRECATED_OPTIONS[d]) == Success(c[OPTIONS][d])
    ensures Get(ManageOptions(c, s).value, d) == Success(c[OPTIONS][d])
  {
    ManageOptionsRenamesDeprecated(c, s, d);
    TablesConsistent();
  }

  /** For every other name, `manage_options` does not change what `get` answers. */
  lemma GetAfterManageOthers(c: Sections, s: seq<string>, k: string)
    requires WellFormedSnapshot(c, s)
    requires k !in s || !IsDeprecated(k)
    requires forall d :: d in s && IsDeprecated(d) ==> DEPRECATED_OPTIONS[d] != k
    ensures ManageOptions(c, s).Success?
    ensures Get(ManageOptions(c, s).value, k) == Get(c, k)
  {
    ManageOptionsMeetsClosedForm(c, s);
    TablesConsistent();
    var c' := ManageOptions(c, s).value;
    if IsAccepted(k) {
      ManageOptionsKeepsAccepted(c, s, k);
      assert Lookup(Section(c', OPTIONS), k) == Lookup(Section(c, OPTIONS), k);
    } else if IsDeprecated(k) {
      var t := DEPRECATED_OPTIONS[k];
      RenamerOf(k);
      assert Lookup(Section(c', OPTIONS), t) == OptionsAfter(c, s, t);
    }
  }

  /** A deprecated name is answered by one redirection to an accepted option,
      whose answer it shares, error included. */
  lemma GetDeprecatedOneStep(c: Sections, d: string)
    requires IsDeprecated(d)
    ensures IsAccepted(DEPRECATED_OPTIONS[d])
    ensures Get(c, d) == Get(c, DEPRECATED_OPTIONS[d])
  {
    TablesConsistent();
  }

  /** The default listed for "f_gen" is never returned: `get("f_gen")` is
      redirected to "f_token_url", which has no default. */
  lemma FGenDefaultUnreachable(c: Sections)
    requires OPTIONS in c && "f_token_url" !in c[OPTIONS]
    ensures "f_gen" in DEFAULT_OPTIONS
    ensures Get(c, "f_gen") == Failure(NotSetNoDefault("f_token_url"))
  {
    GetDeprecatedOneStep(c, "f_gen");
  }

  /** Whatever `save` decides, every option still reads the same. */
  lemma SaveKeepsGet(c: Sections, configPath: Option<string>, origin: string,
                     path: Option<string>, includeTokens: bool, k: string)
    ensures Get(Save(c, configPath, origin, path, includeTokens).sections, k) == Get(c, k)
  {
    var c' := Save(c, configPath, origin, path, includeTokens).sections;
    assert OPTIONS in c' <==> OPTIONS in c;
    if OPTIONS in c {
      assert c'[OPTIONS] == c[OPTIONS];
    }
    if IsDeprecated(k) {
      TablesConsistent();
    }
  }

  /** Saving what was saved, with the same arguments, writes the same thing
      to the same place. */
  lemma SaveIdempotent(c: Sections, configPath: Option<string>, origin: string,
                       path: Option<string>, includeTokens: bool)
    ensures var p := Save(c, configPath, origin, path, includeTokens);
      Save(p.sections, configPath, origin, path, includeTokens) == p
  {
    var p := Save(c, configPath, origin, path, includeTokens);
    var q := Save(p.sections, configPath, origin, path, includeTokens);
    assert q.sections.Keys == p.sections.Keys;
  }
}
