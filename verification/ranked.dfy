/** Ranked standing: choosing one league entry by queue-type preference, and
    rendering an entry as rank text. */
module Ranked {
  import opened Js
  import opened Types

  /** Queue types in decreasing order of preference. */
  const Preference: seq<string> :=
    ["RANKED_TFT", "RANKED_TFT_STANDARD", "RANKED_TFT_DOUBLE_UP", "RANKED_TFT_TURBO", "RANKED_TFT_PAIRS"]

  /** `Number.MAX_SAFE_INTEGER`, the index of every unlisted queue type. */
  const MaxSafeInteger: nat := 9007199254740991

  /** `xs.indexOf(x)`: the first position of `x`, or -1. */
  function IndexOf(xs: seq<string>, x: string): (i: int)
    ensures -1 <= i < |xs|
    ensures i == -1 <==> x !in xs
    ensures i >= 0 ==> xs[i] == x && x !in xs[..i]
  {
    if xs == [] then -1
    else if xs[0] == x then 0
    else
      var j := IndexOf(xs[1..], x);
      assert xs[1..] == xs[1..][..|xs| - 1];
      if j == -1 then -1
      else
        assert xs[..j + 1] == [xs[0]] + xs[1..][..j];
        j + 1
  }

  /** `preferenceIndex`: the position in `Preference`, unlisted types last. */
  function PreferenceIndex(queueType: string): (r: nat)
    ensures queueType in Preference ==> r < |Preference| && Preference[r] == queueType
    ensures queueType !in Preference ==> r == MaxSafeInteger
    ensures r >= |Preference| ==> queueType !in Preference
  {
    var i := IndexOf(Preference, queueType);
    if i == -1 then MaxSafeInteger else i
  }

  function Pref(e: LeagueEntry): nat {
    PreferenceIndex(e.queueType)
  }

  // ---------------------------------------------------------------------------
  // The stable sort by a numeric key

  predicate SortedBy<T>(s: seq<T>, key: T -> nat) {
    forall i, j :: 0 <= i < j < |s| ==> key(s[i]) <= key(s[j])
  }

  /** The elements of `s` whose key is `k`, in order. */
  function WithKey<T>(s: seq<T>, key: T -> nat, k: nat): seq<T> {
    if s == [] then []
    else (if key(s[0]) == k then [s[0]] else []) + WithKey(s[1..], key, k)
  }

  /** Places `e` before the first element of `sorted` that it does not rank
      behind, so `e` precedes every element with an equal key. */
  function Insert<T>(e: T, sorted: seq<T>, key: T -> nat): (r: seq<T>)
    requires SortedBy(sorted, key)
    ensures SortedBy(r, key)
    ensures multiset(r) == multiset(sorted) + multiset{e}
    ensures |r| == |sorted| + 1
    ensures r[0] == (if sorted == [] || key(e) <= key(sorted[0]) then e else sorted[0])
  {
    if sorted == [] || key(e) <= key(sorted[0]) then [e] + sorted
    else
      var tail := sorted[1..];
      assert SortedBy(tail, key) by {
        forall i, j | 0 <= i < j < |tail|
          ensures key(tail[i]) <= key(tail[j])
        {
          assert tail[i] == sorted[i + 1] && tail[j] == sorted[j + 1];
        }
      }
      var rest := Insert(e, tail, key);
      assert sorted == [sorted[0]] + tail;
      [sorted[0]] + rest
  }

  /** Stable insertion sort by `key`, inserting from the back. */
  function SortBy<T>(s: seq<T>, key: T -> nat): (r: seq<T>)
    ensures SortedBy(r, key)
    ensures multiset(r) == multiset(s)
    ensures |r| == |s|
  {
    if s == [] then []
    else
      assert s == [s[0]] + s[1..];
      Insert(s[0], SortBy(s[1..], key), key)
  }

  lemma {:induction false} WithKeyAppend<T>(a: seq<T>, b: seq<T>, key: T -> nat, k: nat)
    ensures WithKey(a + b, key, k) == WithKey(a, key, k) + WithKey(b, key, k)
  {
    if a != [] {
      assert (a + b)[0] == a[0];
      assert (a + b)[1..] == a[1..] + b;
      WithKeyAppend(a[1..], b, key, k);
    } else {
      assert a + b == b;
    }
  }

  lemma WithKeyCons<T>(x: T, s: seq<T>, key: T -> nat, k: nat)
    ensures WithKey([x] + s, key, k) == (if key(x) == k then [x] else []) + WithKey(s, key, k)
  {
    assert ([x] + s)[1..] == s;
  }

  lemma {:induction false} InsertKeepsGroups<T>(e: T, sorted: seq<T>, key: T -> nat, k: nat)
    requires SortedBy(sorted, key)
    ensures WithKey(Insert(e, sorted, key), key, k)
         == (if key(e) == k then [e] else []) + WithKey(sorted, key, k)
  {
    if sorted == [] || key(e) <= key(sorted[0]) {
      WithKeyCons(e, sorted, key, k);
    } else {
      var x, rest := sorted[0], sorted[1..];
      var inserted := Insert(e, rest, key);
      assert Insert(e, sorted, key) == [x] + inserted;
      assert sorted == [x] + rest;
      InsertKeepsGroups(e, rest, key, k);
      WithKeyCons(x, inserted, key, k);
      WithKeyCons(x, rest, key, k);
    }
  }

  /** Stability: for every key, the elements sharing it keep their input
      order. With sortedness and the permutation property this determines
      the sorted sequence completely. */
  lemma {:induction false} SortIsStable<T>(s: seq<T>, key: T -> nat, k: nat)
    ensures WithKey(SortBy(s, key), key, k) == WithKey(s, key, k)
  {
    if s != [] {
      SortIsStable(s[1..], key, k);
      InsertKeepsGroups(s[0], SortBy(s[1..], key), key, k);
    }
  }

  /** A copy of the entries sorted stably by preference index, most
      preferred first. */
  function SortByPreference(entries: seq<LeagueEntry>): seq<LeagueEntry> {
    SortBy(entries, Pref)
  }

  // ---------------------------------------------------------------------------
  // Selection

  /** The selected entry: the head of the sorted list, or none. */
  function SelectLeague(entries: seq<LeagueEntry>): Option<LeagueEntry> {
    var sorted := SortByPreference(entries);
    if |sorted| > 0 then Some(sorted[0]) else None
  }

  /** The position of the earliest element of smallest key. */
  function FirstMinimum<T>(s: seq<T>, key: T -> nat): (i: nat)
    requires |s| > 0
    ensures i < |s|
    ensures forall j :: 0 <= j < |s| ==> key(s[i]) <= key(s[j])
    ensures forall j :: 0 <= j < i ==> key(s[i]) < key(s[j])
  {
    if |s| == 1 then 0
    else
      var k := FirstMinimum(s[1..], key);
      if key(s[0]) <= key(s[1 + k]) then 0 else 1 + k
  }

  /** The head of the stable sort is the earliest element of smallest key. */
  lemma {:induction false} SortHeadIsFirstMinimum<T>(s: seq<T>, key: T -> nat)
    requires |s| > 0
    ensures SortBy(s, key)[0] == s[FirstMinimum(s, key)]
  {
    if |s| > 1 {
      SortHeadIsFirstMinimum(s[1..], key);
    }
  }

  /** The selected entry is a member of the list with no entry strictly more
      preferred, and the earliest among equally preferred ones; the empty
      list selects nothing. */
  lemma SelectLeagueIsEarliestMostPreferred(entries: seq<LeagueEntry>)
    ensures SelectLeague(entries).None? <==> entries == []
    ensures entries != [] ==> SelectLeague(entries) == Some(entries[FirstMinimum(entries, Pref)])
  {
    if entries != [] {
      SortHeadIsFirstMinimum(entries, Pref);
    }
  }

  /** Two selections worth spelling out: standard ranked beats Double Up,
      and Pairs beats an unlisted queue type. */
  lemma SelectionExamples(a: LeagueEntry, b: LeagueEntry)
    ensures a.queueType == "RANKED_TFT_DOUBLE_UP" && b.queueType == "RANKED_TFT" ==>
              SelectLeague([a, b]) == Some(b)
    ensures a.queueType == "RANKED_TFT_PAIRS" && b.queueType !in Preference ==>
              SelectLeague([b, a]) == Some(a)
  {
    SelectLeagueIsEarliestMostPreferred([a, b]);
    SelectLeagueIsEarliestMostPreferred([b, a]);
  }

  // ---------------------------------------------------------------------------
  // Rank text

  /** `cap`: first character kept, the rest lower-cased; "" when absent or
      empty. */
  function Capitalize(s: Option<string>): (r: string)
    ensures r == "" <==> !Truthy(s)
    ensures Truthy(s) ==> |r| == |s.value| && r[0] == s.value[0]
                          && forall i :: 1 <= i < |r| ==> r[i] == LowerChar(s.value[i])
  {
    if Truthy(s) then [s.value[0]] + ToLowerAscii(s.value[1..]) else ""
  }

  const ApexTiers: seq<string> := ["Master", "Grandmaster", "Challenger"]

  /** The rank text of a league entry: "Unranked" without a tier, otherwise
      the tier, the division below the apex tiers, and the league points. */
  function FormatRank(e: LeagueEntry): (r: string)
    ensures r == "Unranked" <==> !Truthy(e.tier)
  {
    var tier := Capitalize(e.tier);
    if tier == "" then "Unranked"
    else
      var lp := if e.leaguePoints.Some? then e.leaguePoints.value else 0;
      var r := if tier in ApexTiers then tier + " " + IntToString(lp) + "LP"
               else
                 var roman := if Truthy(e.rank) then e.rank.value else "";
                 tier + " " + roman + " " + IntToString(lp) + "LP";
      assert r[|tier|] == ' ' && ' ' !in "Unranked";
      r
  }

  /** Rank text of a ranked entry: the capitalised tier, a space, then (below
      the apex tiers) the division and a space, then the league points
      (0 when absent) and "LP". The division never shows for an apex tier. */
  lemma FormatRankShape(e: LeagueEntry)
    requires Truthy(e.tier)
    ensures var tier := Capitalize(e.tier);
            var lp := IntToString(if e.leaguePoints.Some? then e.leaguePoints.value else 0);
            var division := if Truthy(e.rank) then e.rank.value else "";
            && (tier in ApexTiers ==> FormatRank(e) == tier + " " + lp + "LP")
            && (tier !in ApexTiers ==> FormatRank(e) == tier + " " + division + " " + lp + "LP")
            && (tier in ApexTiers ==> forall d :: FormatRank(e.(rank := d)) == FormatRank(e))
  {
  }

  /** The worked example "GOLD" "II" 37. */
  lemma FormatRankGoldExample(e: LeagueEntry)
    requires e.tier == Some("GOLD") && e.rank == Some("II") && e.leaguePoints == Some(37)
    ensures FormatRank(e) == "Gold II 37LP"
  {
    var tier := Capitalize(e.tier);
    assert tier == "Gold" by {
      assert |tier| == 4 && tier[0] == 'G';
      assert tier[1] == LowerChar('O') == 'o';
      assert tier[2] == LowerChar('L') == 'l';
      assert tier[3] == LowerChar('D') == 'd';
    }
    assert IntToString(37) == "37" by {
      assert NatToString(3) == "3";
    }
  }

  /** The worked example "CHALLENGER" 500: an apex tier shows no division. */
  lemma FormatRankChallengerExample(e: LeagueEntry)
    requires e.tier == Some("CHALLENGER") && e.leaguePoints == Some(500)
    ensures FormatRank(e) == "Challenger 500LP"
  {
    ChallengerLowered();
    assert "Challenger" in ApexTiers by {
      assert ApexTiers[2] == "Challenger";
    }
    FiveHundredText();
    FormatRankShape(e);
    ChallengerText();
  }

  lemma FiveHundredText()
    ensures IntToString(500) == "500"
  {
    assert NatToString(5) == "5";
    assert NatToString(50) == "50";
  }

  lemma ChallengerText()
    ensures "Challenger" + " " + "500" + "LP" == "Challenger 500LP"
  {
  }

  lemma ChallengerLowered()
    ensures Capitalize(Some("CHALLENGER")) == "Challenger"
  {
    var tier := Capitalize(Some("CHALLENGER"));
    assert |tier| == 10 && tier[0] == 'C';
    assert tier[1] == 'h' && tier[2] == 'a' && tier[3] == 'l' && tier[4] == 'l';
    assert tier[5] == 'e' && tier[6] == 'n' && tier[7] == 'g' && tier[8] == 'e' && tier[9] == 'r';
  }
}
