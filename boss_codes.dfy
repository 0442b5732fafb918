/**
 * Boss codes: the pass phrase that lets a tenant's "boss" use the agent's
 * admin tools. `createBossProfile` makes one from the boss's name and a
 * four-digit random suffix; `lookupBossCode` finds the active profile a
 * spoken or typed code belongs to.
 */
module BossCodes {
  import opened Wrappers
  import opened Text
  import opened Seqs
  import opened Domain

  /**
   * `${bossName.toUpperCase().replace(/\s+/g, '-')}-${suffix}`; the suffix
   * `Math.floor(1000 + Math.random() * 9000)` is a parameter.
   */
  function BossCode(bossName: string, suffix: int): (code: string)
    requires 1000 <= suffix <= 9999
  {
    ReplaceRuns(Upper(bossName), IsSpace, '-') + "-" + NatToString(suffix)
  }

  /** The upper-cased name part of a code, with its white space runs turned into single dashes. */
  function NamePart(bossName: string): string {
    ReplaceRuns(Upper(bossName), IsSpace, '-')
  }

  /**
   * A code holds no white space and no lower-case letter, and ends in a
   * dash and the four digits of its suffix, which can be read back.
   */
  lemma BossCodeShape(bossName: string, suffix: int)
    requires 1000 <= suffix <= 9999
    ensures var code := BossCode(bossName, suffix);
      && NoSpace(code) && NoLower(code)
      && |code| >= 5
      && code[|code| - 5] == '-'
      && AllDigits(code[|code| - 4..])
      && DecimalValue(code[|code| - 4..]) == suffix
      && code[..|code| - 5] == NamePart(bossName)
  {
    var head := NamePart(bossName);
    var digits := NatToString(suffix);
    var code := BossCode(bossName, suffix);
    NatToStringLength(suffix);
    DecimalRoundTrip(suffix);
    ReplaceRunsChars(Upper(bossName), IsSpace, '-');
    UpperIsUpper(bossName);
    assert code == head + "-" + digits;
    assert code[|code| - 4..] == digits;
    assert code[..|code| - 5] == head;
    forall i | 0 <= i < |code| ensures !IsSpace(code[i]) && !IsLower(code[i]) {
      if i < |head| {
        assert code[i] == head[i];
        if head[i] != '-' {
          var j :| 0 <= j < |Upper(bossName)| && Upper(bossName)[j] == head[i];
        }
      } else if i > |head| {
        assert code[i] == digits[i - |head| - 1];
      }
    }
  }

  /** The name part keeps the name's non-space characters, upper-cased, in order. */
  lemma NamePartKeeps(bossName: string)
    ensures Keep(NamePart(bossName), c => !IsSpace(c) && c != '-') == Keep(Upper(bossName), c => !IsSpace(c) && c != '-')
  {
    ReplaceRunsKeeps(Upper(bossName), IsSpace, '-', c => !IsSpace(c) && c != '-');
  }

  // ------------------------------------------------------------- lookup

  /** The key `lookupBossCode` queries with: `code.trim().toUpperCase()`. */
  function LookupKey(code: string): string {
    Upper(Trim(code))
  }

  /** A code typed in any case, with white space around it, is looked up as the code it upper-cases to. */
  lemma TypedCodeKey(code: string, typed: string, pre: string, post: string)
    requires NoSpace(code) && code != []
    requires Upper(typed) == code
    requires AllSpace(pre) && AllSpace(post)
    ensures LookupKey(pre + typed + post) == code
  {
    assert !IsSpace(Upper(typed)[0]);
    assert !IsSpace(typed[0]);
    assert !IsSpace(Upper(typed)[|typed| - 1]);
    assert !IsSpace(typed[|typed| - 1]);
    TrimPadded(pre, typed, post);
  }

  /** Every generated code is found from its lower-cased, padded form, and from itself. */
  lemma GeneratedCodeFound(bossName: string, suffix: int, pre: string, post: string)
    requires 1000 <= suffix <= 9999
    requires AllSpace(pre) && AllSpace(post)
    ensures LookupKey(pre + Lower(BossCode(bossName, suffix)) + post) == BossCode(bossName, suffix)
    ensures LookupKey(BossCode(bossName, suffix)) == BossCode(bossName, suffix)
  {
    var code := BossCode(bossName, suffix);
    BossCodeShape(bossName, suffix);
    UpperOfLower(code);
    UpperOfNoLower(code);
    TypedCodeKey(code, Lower(code), pre, post);
    TypedCodeKey(code, code, [], []);
    assert [] + code + [] == code;
  }

  function ActiveWithCode(key: string): BossProfile -> bool {
    (b: BossProfile) => b.bossCode == key && b.isActive
  }

  /**
   * `lookupBossCode(code)`: the active profile whose code equals the key,
   * when exactly one does (`.single()` yields nothing for none or several).
   */
  function LookupBossCode(bosses: seq<BossProfile>, code: string): (r: Option<BossProfile>)
    ensures r.Some? ==> r.value in bosses && r.value.isActive && r.value.bossCode == LookupKey(code)
  {
    var matching := Filter(bosses, ActiveWithCode(LookupKey(code)));
    if |matching| == 1 then Some(matching[0]) else None
  }

  /** Exactly one active profile with the key: that profile is found. */
  lemma LookupUnique(bosses: seq<BossProfile>, code: string, i: nat)
    requires i < |bosses| && bosses[i].isActive && bosses[i].bossCode == LookupKey(code)
    requires forall j :: 0 <= j < |bosses| && j != i ==> !(bosses[j].isActive && bosses[j].bossCode == LookupKey(code))
    ensures LookupBossCode(bosses, code) == Some(bosses[i])
  {
    var p := ActiveWithCode(LookupKey(code));
    assert forall j :: 0 <= j < |bosses| && j != i ==> !p(bosses[j]);
    FilterUnique(bosses, p, i);
  }

  /** No active profile with the key: nothing is found. */
  lemma LookupMissing(bosses: seq<BossProfile>, code: string)
    requires forall j :: 0 <= j < |bosses| ==> !(bosses[j].isActive && bosses[j].bossCode == LookupKey(code))
    ensures LookupBossCode(bosses, code) == None
  {
    FilterNone(bosses, ActiveWithCode(LookupKey(code)));
  }
}
