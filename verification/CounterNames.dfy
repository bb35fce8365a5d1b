/**
 Reading traffic counters in backend/xray/api/stats.go. The core names a counter by its kind, the name of the
 user, inbound or outbound, and two more words, joined by ">>>"; the readers split the name again.
 */
module CounterNames {

  const SEP := ">>>"

  predicate SepAt(s: string, i: nat) { i + 3 <= |s| && s[i] == '>' && s[i + 1] == '>' && s[i + 2] == '>' }

  // The first place, from i on, where the separator stands; |s| if there is none.
  function FirstSep(s: string, i: nat): (k: nat)
    requires i <= |s|
    ensures i <= k <= |s| && (k < |s| ==> SepAt(s, k)) && forall j :: i <= j < k ==> !SepAt(s, j)
    decreases |s| - i
  {
    if i == |s| || SepAt(s, i) then i else FirstSep(s, i + 1)
  }

  // strings.Split(s, ">>>")
  function Split(s: string): (parts: seq<string>)
    ensures parts != []
    decreases |s|
  {
    var k := FirstSep(s, 0);
    if k == |s| then [s] else [s[..k]] + Split(s[k + 3..])
  }

  function Join(parts: seq<string>): string
    requires parts != []
  {
    if |parts| == 1 then parts[0] else parts[0] + SEP + Join(parts[1..])
  }

  ghost predicate HasSep(s: string) { exists i :: 0 <= i < |s| && SepAt(s, i) }

  ghost predicate NoGt(s: string) { forall i :: 0 <= i < |s| ==> s[i] != '>' }

  // The name neither contains the separator nor ends in its symbol.
  ghost predicate CleanName(s: string) { !HasSep(s) && (s != "" ==> s[|s| - 1] != '>') }

  lemma FirstSepIs(s: string, k: nat)
    requires SepAt(s, k) && forall j :: 0 <= j < k ==> !SepAt(s, j)
    ensures FirstSep(s, 0) == k
  {
  }

  // In head + ">>>" + tail the first separator stands behind head exactly when head is a clean name.
  lemma SepBehindIff(head: string, tail: string)
    ensures FirstSep(head + SEP + tail, 0) == |head| <==> CleanName(head)
    ensures FirstSep(head + SEP + tail, 0) <= |head|
  {
    var s := head + SEP + tail;
    assert SepAt(s, |head|);
    if CleanName(head) {
      forall j | 0 <= j < |head| ensures !SepAt(s, j) {
        assert !SepAt(head, j);
        if j + 3 > |head| {
          assert s[|head| - 1] == head[|head| - 1];
        }
      }
      FirstSepIs(s, |head|);
    } else if HasSep(head) {
      var i :| 0 <= i < |head| && SepAt(head, i);
      assert SepAt(s, i);
    } else {
      assert SepAt(s, |head| - 1) by {
        assert s[|head| - 1] == head[|head| - 1] && s[|head|] == SEP[0] && s[|head| + 1] == SEP[1];
      }
    }
  }

  lemma SplitBehind(head: string, tail: string)
    requires CleanName(head)
    ensures Split(head + SEP + tail) == [head] + Split(tail)
  {
    SepBehindIff(head, tail);
    var s := head + SEP + tail;
    assert s[..|head|] == head && s[|head| + 3..] == tail;
  }

  lemma SplitWhole(s: string)
    requires NoGt(s)
    ensures Split(s) == [s]
  {
    assert !SepAt(s, FirstSep(s, 0));
  }

  lemma {:induction false} JoinOfSplit(s: string)
    ensures Join(Split(s)) == s
  {
    var k := FirstSep(s, 0);
    if k < |s| {
      var rest := Split(s[k + 3..]);
      JoinOfSplit(s[k + 3..]);
      assert Split(s)[1..] == rest;
      assert s == s[..k] + SEP + s[k + 3..];
    }
  }

  function CounterName(kind: string, name: string, third: string, fourth: string): string {
    kind + SEP + (name + SEP + (third + SEP + fourth))
  }

  lemma NameIsJoined(kind: string, name: string, third: string, fourth: string)
    ensures CounterName(kind, name, third, fourth) == kind + ">>>" + name + ">>>" + third + ">>>" + fourth
  {
  }

  /**
   A name is clean exactly if ">>>" does not stand anywhere in it and it does not end in ">".
   */
  lemma CleanNameIff(name: string)
    ensures CleanName(name) <==>
              && !(exists before: string, after: string :: name == before + ">>>" + after)
              && !(exists before: string :: name == before + ">")
  {
    if HasSep(name) {
      var i :| 0 <= i < |name| && SepAt(name, i);
      assert name == name[..i] + ">>>" + name[i + 3..];
    }
    if before: string, after: string :| name == before + ">>>" + after {
      assert name[|before|] == ">>>"[0] && name[|before| + 1] == ">>>"[1] && name[|before| + 2] == ">>>"[2];
      assert SepAt(name, |before|);
    }
    if name != "" && name[|name| - 1] == '>' {
      assert name == name[..|name| - 1] + ">";
    }
    if before: string :| name == before + ">" {
      assert name[|name| - 1] == '>';
    }
  }

  /**
   Splitting a counter's name gives back its four fields exactly when the name in it neither contains ">>>" nor
   ends in ">", the other three fields being free of ">".
   */
  lemma FieldsRecoveredIff(kind: string, name: string, third: string, fourth: string)
    requires NoGt(kind) && NoGt(third) && NoGt(fourth)
    ensures Split(kind + ">>>" + name + ">>>" + third + ">>>" + fourth) == [kind, name, third, fourth] <==>
            CleanName(name)
  {
    NameIsJoined(kind, name, third, fourth);
    if CleanName(name) {
      CleanNameRecovered(kind, name, third, fourth);
    } else {
      UncleanNameLost(kind, name, third + SEP + fourth);
    }
  }

  lemma CleanNameRecovered(kind: string, name: string, third: string, fourth: string)
    requires NoGt(kind) && NoGt(third) && NoGt(fourth) && CleanName(name)
    ensures Split(CounterName(kind, name, third, fourth)) == [kind, name, third, fourth]
  {
    var tail := third + SEP + fourth;
    SplitWhole(fourth);
    SplitBehind(third, fourth);
    SplitBehind(name, tail);
    assert name + SEP + (third + SEP + fourth) == name + SEP + tail;
    SplitBehind(kind, name + SEP + tail);
    Prepended(kind, name, third, fourth);
  }

  lemma Prepended(a: string, b: string, c: string, d: string)
    ensures [a] + ([b] + ([c] + [d])) == [a, b, c, d]
  {
  }

  // An unclean name comes back shorter.
  lemma UncleanNameLost(kind: string, name: string, tail: string)
    requires NoGt(kind) && !CleanName(name)
    ensures var parts := Split(kind + SEP + (name + SEP + tail)); |parts| > 1 && parts[1] != name
  {
    var s := name + SEP + tail;
    SplitBehind(kind, s);
    SepBehindIff(name, tail);
    assert Split(s)[0] == s[..FirstSep(s, 0)];
  }

  // ---------- the readers ----------

  datatype Counter = Counter(name: string, value: int)
  datatype Stat = Stat(name: string, kind: string, link: string, value: int)

  // The readers index the parts of every name up to the fourth; with fewer parts they panic.
  ghost predicate Readable(counters: seq<Counter>) {
    forall c :: c in counters ==> |Split(c.name)| >= 4
  }

  // GetUsersStats, GetInboundsStats and GetOutboundsStats: link third, type fourth.
  function PluralStat(c: Counter): Stat
    requires |Split(c.name)| >= 4
  {
    var parts := Split(c.name);
    Stat(parts[1], parts[3], parts[2], c.value)
  }

  // GetUserStats, GetInboundStats and GetOutboundStats: type third, link fourth.
  function SingularStat(c: Counter): Stat
    requires |Split(c.name)| >= 4
  {
    var parts := Split(c.name);
    Stat(parts[1], parts[2], parts[3], c.value)
  }

  method ReadPlural(counters: seq<Counter>) returns (stats: seq<Stat>, panicked: bool)
    ensures panicked <==> !Readable(counters)
    ensures !panicked ==>
              |stats| == |counters| && forall i :: 0 <= i < |stats| ==>
                |Split(counters[i].name)| >= 4 && stats[i] == PluralStat(counters[i])
  {
    stats, panicked := [], false;
    for i := 0 to |counters|
      invariant forall j :: 0 <= j < i ==> |Split(counters[j].name)| >= 4
      invariant |stats| == i && forall j :: 0 <= j < i ==> stats[j] == PluralStat(counters[j])
    {
      var parts := Split(counters[i].name);
      if |parts| < 4 {
        assert counters[i] in counters;
        return stats, true;
      }
      stats := stats + [Stat(parts[1], parts[3], parts[2], counters[i].value)];
    }
  }

  method ReadSingular(counters: seq<Counter>) returns (stats: seq<Stat>, panicked: bool)
    ensures panicked <==> !Readable(counters)
    ensures !panicked ==>
              |stats| == |counters| && forall i :: 0 <= i < |stats| ==>
                |Split(counters[i].name)| >= 4 && stats[i] == SingularStat(counters[i])
  {
    stats, panicked := [], false;
    for i := 0 to |counters|
      invariant forall j :: 0 <= j < i ==> |Split(counters[j].name)| >= 4
      invariant |stats| == i && forall j :: 0 <= j < i ==> stats[j] == SingularStat(counters[j])
    {
      var parts := Split(counters[i].name);
      if |parts| < 4 {
        assert counters[i] in counters;
        return stats, true;
      }
      stats := stats + [Stat(parts[1], parts[2], parts[3], counters[i].value)];
    }
  }

  /** On a well-formed counter both readers report the name and the value; type and link are swapped. */
  lemma ReadersAgree(kind: string, name: string, third: string, fourth: string, value: int)
    requires NoGt(kind) && NoGt(third) && NoGt(fourth) && CleanName(name)
    ensures var c := Counter(kind + ">>>" + name + ">>>" + third + ">>>" + fourth, value);
            && |Split(c.name)| == 4
            && PluralStat(c) == Stat(name, fourth, third, value)
            && SingularStat(c) == Stat(name, third, fourth, value)
  {
    FieldsRecoveredIff(kind, name, third, fourth);
  }
}
