/** An INI configuration as a map from section name to that section's
    options, with the handful of ConfigParser operations the scraper uses. */
module Sections {
  import opened Wrappers

  type Sections = map<string, map<string, string>>

  /** `m.get(k)`: the value under `k`, if any. */
  function Lookup(m: map<string, string>, k: string): Option<string>
  {
    if k in m then Some(m[k]) else None
  }

  /** The options of section `name`, or none when the section does not exist. */
  function Section(c: Sections, name: string): map<string, string>
  {
    if name in c then c[name] else map[]
  }

  /** `if not has_section(sec): add_section(sec)` followed by `config[sec][key] = v`. */
  function Put(c: Sections, sec: string, key: string, v: string): Sections
  {
    c[sec := Section(c, sec)[key := v]]
  }

  /** `remove_option(sec, key)`. */
  function RemoveOption(c: Sections, sec: string, key: string): Sections
  {
    if sec in c then c[sec := c[sec] - {key}] else c
  }

  /** `remove_section(sec)`; removing a missing section does nothing. */
  function RemoveSection(c: Sections, sec: string): Sections
  {
    c - {sec}
  }

  /** Two sections that agree on every lookup are the same section. */
  lemma LookupExtensional(m1: map<string, string>, m2: map<string, string>)
    requires forall k :: Lookup(m1, k) == Lookup(m2, k)
    ensures m1 == m2
  {
    assert m1.Keys == m2.Keys by {
      forall k
        ensures k in m1 <==> k in m2
      {
        assert Lookup(m1, k) == Lookup(m2, k);
      }
    }
    forall k | k in m1
      ensures m1[k] == m2[k]
    {
      assert Lookup(m1, k) == Lookup(m2, k);
    }
  }
}
