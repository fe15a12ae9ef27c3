/**
 * The history page's `groupedSessions`: sessions, newest first, grouped under their start
 * day's label. The `reduce` builds a dictionary in place; here the dictionary is a map
 * reassigned entry by entry, with its keys in insertion order (the order `Object.entries` lists them).
 */
module History {
  import opened Wrappers

  /** `NaamJaapSession`. */
  datatype Session = Session(id: string, startTime: string, endTime: string,
                             totalCount: int, malaCount: int, chantText: string)

  /** The sessions of `ss` whose start day has label `key`, in their input order. */
  function Filter(ss: seq<Session>, dateLabel: string -> string, key: string): (r: seq<Session>)
    ensures |r| <= |ss|
    ensures forall s :: s in r ==> s in ss && dateLabel(s.startTime) == key
  {
    if ss == [] then []
    else Filter(ss[..|ss| - 1], dateLabel, key) +
         (if dateLabel(ss[|ss| - 1].startTime) == key then [ss[|ss| - 1]] else [])
  }

  /** Every session is in the group of its own label. */
  lemma {:induction false} FilterKeeps(ss: seq<Session>, dateLabel: string -> string, j: nat)
    requires j < |ss|
    ensures ss[j] in Filter(ss, dateLabel, dateLabel(ss[j].startTime))
  {
    if j < |ss| - 1 {
      FilterKeeps(ss[..|ss| - 1], dateLabel, j);
    }
  }

  /** The start-day label of each session, in input order. */
  function Labels(ss: seq<Session>, dateLabel: string -> string): (ls: seq<string>)
    ensures |ls| == |ss| && forall j :: 0 <= j < |ss| ==> ls[j] == dateLabel(ss[j].startTime)
  {
    if ss == [] then [] else Labels(ss[..|ss| - 1], dateLabel) + [dateLabel(ss[|ss| - 1].startTime)]
  }

  /** The distinct entries of `xs` in the order of their first occurrence. */
  function FirstOccurrences(xs: seq<string>): seq<string> {
    if xs == [] then []
    else
      var d := FirstOccurrences(xs[..|xs| - 1]);
      if xs[|xs| - 1] in d then d else d + [xs[|xs| - 1]]
  }

  /** Keeping first occurrences loses no entry, adds none, and lists each once. */
  lemma {:induction false} FirstOccurrencesMembers(xs: seq<string>)
    ensures forall k :: k in FirstOccurrences(xs) <==> k in xs
    ensures Distinct(FirstOccurrences(xs))
  {
    if xs != [] {
      var init := xs[..|xs| - 1];
      FirstOccurrencesMembers(init);
      assert xs == init + [xs[|xs| - 1]];
    }
  }

  ghost predicate Distinct(keys: seq<string>) {
    forall i, j :: 0 <= i < j < |keys| ==> keys[i] != keys[j]
  }

  /** The total number of sessions held under `keys`. */
  function SumSizes(groups: map<string, seq<Session>>, keys: seq<string>): nat
    requires forall k :: k in keys ==> k in groups
  {
    if keys == [] then 0 else SumSizes(groups, keys[..|keys| - 1]) + |groups[keys[|keys| - 1]]|
  }

  /** Changing the group of a key not in `keys` leaves their sum alone. */
  lemma {:induction false} SumSizesOther(groups: map<string, seq<Session>>, keys: seq<string>,
                                         k: string, v: seq<Session>)
    requires forall x :: x in keys ==> x in groups
    requires k !in keys
    ensures SumSizes(groups[k := v], keys) == SumSizes(groups, keys)
  {
    if keys != [] {
      assert keys[..|keys| - 1] <= keys;
      SumSizesOther(groups, keys[..|keys| - 1], k, v);
    }
  }

  /** Growing the group of one key in `keys` by one session grows their sum by one. */
  lemma {:induction false} SumSizesBump(groups: map<string, seq<Session>>, keys: seq<string>,
                                        k: string, s: Session)
    requires forall x :: x in keys ==> x in groups
    requires Distinct(keys) && k in keys
    ensures SumSizes(groups[k := groups[k] + [s]], keys) == SumSizes(groups, keys) + 1
  {
    var init, last := keys[..|keys| - 1], keys[|keys| - 1];
    assert keys == init + [last];
    if last == k {
      assert k !in init;
      SumSizesOther(groups, init, k, groups[k] + [s]);
    } else {
      assert k in init;
      SumSizesBump(groups, init, k, s);
    }
  }

  /** The loop's invariant after the first `i` sessions: each label seen so far keys its group, listed once in `keys`. */
  ghost predicate Grouped(ss: seq<Session>, dateLabel: string -> string, i: nat,
                          groups: map<string, seq<Session>>, keys: seq<string>)
    requires i <= |ss|
  {
    GroupsMatch(ss, dateLabel, i, groups) &&
    (forall k :: k in keys <==> k in groups) &&
    Distinct(keys) &&
    keys == FirstOccurrences(Labels(ss[..i], dateLabel)) &&
    SumSizes(groups, keys) == i
  }

  /** One more session extends its own label's group and no other. */
  lemma FilterStep(ss: seq<Session>, dateLabel: string -> string, i: nat)
    requires i < |ss|
    ensures forall k :: Filter(ss[..i + 1], dateLabel, k) ==
                        Filter(ss[..i], dateLabel, k) + (if dateLabel(ss[i].startTime) == k then [ss[i]] else [])
  {
    assert ss[..i + 1][..i] == ss[..i];
  }

  ghost predicate GroupsMatch(ss: seq<Session>, dateLabel: string -> string, i: nat, groups: map<string, seq<Session>>)
    requires i <= |ss|
  {
    (forall k :: k in groups <==> Filter(ss[..i], dateLabel, k) != []) &&
    (forall k :: k in groups ==> groups[k] == Filter(ss[..i], dateLabel, k))
  }

  lemma GroupsMatchNew(ss: seq<Session>, dateLabel: string -> string, i: nat, groups: map<string, seq<Session>>)
    requires i < |ss| && GroupsMatch(ss, dateLabel, i, groups)
    requires dateLabel(ss[i].startTime) !in groups
    ensures GroupsMatch(ss, dateLabel, i + 1, groups[dateLabel(ss[i].startTime) := [ss[i]]])
  {
    FilterStep(ss, dateLabel, i);
  }

  lemma KeysMatchNew(groups: map<string, seq<Session>>, keys: seq<string>, date: string, s: Session)
    requires forall k :: k in keys <==> k in groups
    requires Distinct(keys) && date !in groups
    ensures forall k :: k in keys + [date] <==> k in groups[date := [s]]
    ensures Distinct(keys + [date])
    ensures SumSizes(groups[date := [s]], keys + [date]) == SumSizes(groups, keys) + 1
  {
    var g, ks := groups[date := [s]], keys + [date];
    SumSizesOther(groups, keys, date, [s]);
    assert ks[..|keys|] == keys;
  }

  /** One more session adds its label at the end of the labels seen. */
  lemma LabelsStep(ss: seq<Session>, dateLabel: string -> string, i: nat)
    requires i < |ss|
    ensures Labels(ss[..i + 1], dateLabel) == Labels(ss[..i], dateLabel) + [dateLabel(ss[i].startTime)]
  {
    assert ss[..i + 1][..i] == ss[..i];
  }

  /** A session with a label not seen before opens a new group, listed last. */
  lemma GroupStepNew(ss: seq<Session>, dateLabel: string -> string, i: nat,
                     groups: map<string, seq<Session>>, keys: seq<string>)
    requires i < |ss| && Grouped(ss, dateLabel, i, groups, keys)
    requires dateLabel(ss[i].startTime) !in groups
    ensures var date := dateLabel(ss[i].startTime);
      Grouped(ss, dateLabel, i + 1, groups[date := [ss[i]]], keys + [date])
  {
    GroupsMatchNew(ss, dateLabel, i, groups);
    KeysMatchNew(groups, keys, dateLabel(ss[i].startTime), ss[i]);
    KeysStep(ss, dateLabel, i, keys);
  }

  lemma GroupsMatchOld(ss: seq<Session>, dateLabel: string -> string, i: nat, groups: map<string, seq<Session>>)
    requires i < |ss| && GroupsMatch(ss, dateLabel, i, groups)
    requires dateLabel(ss[i].startTime) in groups
    ensures var date := dateLabel(ss[i].startTime);
      GroupsMatch(ss, dateLabel, i + 1, groups[date := groups[date] + [ss[i]]])
  {
    FilterStep(ss, dateLabel, i);
  }

  /** A session with a label seen before joins the end of that group. */
  lemma GroupStepOld(ss: seq<Session>, dateLabel: string -> string, i: nat,
                     groups: map<string, seq<Session>>, keys: seq<string>)
    requires i < |ss| && Grouped(ss, dateLabel, i, groups, keys)
    requires dateLabel(ss[i].startTime) in groups
    ensures var date := dateLabel(ss[i].startTime);
      Grouped(ss, dateLabel, i + 1, groups[date := groups[date] + [ss[i]]], keys)
  {
    var date := dateLabel(ss[i].startTime);
    GroupsMatchOld(ss, dateLabel, i, groups);
    SumSizesBump(groups, keys, date, ss[i]);
    KeysStep(ss, dateLabel, i, keys);
  }

  /** One more session adds its label to the key order if, and only if, it is new. */
  lemma KeysStep(ss: seq<Session>, dateLabel: string -> string, i: nat, keys: seq<string>)
    requires i < |ss| && keys == FirstOccurrences(Labels(ss[..i], dateLabel))
    ensures var date := dateLabel(ss[i].startTime);
      FirstOccurrences(Labels(ss[..i + 1], dateLabel)) == if date in keys then keys else keys + [date]
  {
    var ls := Labels(ss[..i], dateLabel);
    var date := dateLabel(ss[i].startTime);
    LabelsStep(ss, dateLabel, i);
    assert (ls + [date])[..|ls|] == ls;
  }

  /** A label has a non-empty group exactly when some session carries it. */
  lemma FilterNonEmpty(ss: seq<Session>, dateLabel: string -> string, k: string)
    ensures Filter(ss, dateLabel, k) != [] <==> exists j :: 0 <= j < |ss| && dateLabel(ss[j].startTime) == k
  {
    if Filter(ss, dateLabel, k) != [] {
      var x := Filter(ss, dateLabel, k)[0];
      assert x in Filter(ss, dateLabel, k);
      var j :| 0 <= j < |ss| && ss[j] == x;
      assert dateLabel(ss[j].startTime) == k;
    }
    if exists j :: 0 <= j < |ss| && dateLabel(ss[j].startTime) == k {
      var j :| 0 <= j < |ss| && dateLabel(ss[j].startTime) == k;
      FilterKeeps(ss, dateLabel, j);
    }
  }

  /** `groupedSessions` over the loaded query result (`None` while there is none). */
  method GroupSessions(sessions: Option<seq<Session>>, dateLabel: string -> string)
    returns (groups: map<string, seq<Session>>, keys: seq<string>)
    ensures var ss := sessions.GetOr([]);
      (forall k :: k in groups <==> exists j :: 0 <= j < |ss| && dateLabel(ss[j].startTime) == k) &&
      (forall k :: k in groups ==> groups[k] == Filter(ss, dateLabel, k)) &&
      (forall k :: k in keys <==> k in groups) && Distinct(keys) &&
      keys == FirstOccurrences(Labels(ss, dateLabel)) &&
      SumSizes(groups, keys) == |ss| &&
      (keys == [] <==> ss == [])
  {
    var ss := sessions.GetOr([]);
    groups, keys := map[], [];
    for i := 0 to |ss|
      invariant Grouped(ss, dateLabel, i, groups, keys)
    {
      var s := ss[i];
      var date := dateLabel(s.startTime);
      if date !in groups {
        GroupStepNew(ss, dateLabel, i, groups, keys);
        groups := groups[date := [s]];
        keys := keys + [date];
      } else {
        GroupStepOld(ss, dateLabel, i, groups, keys);
        groups := groups[date := groups[date] + [s]];
      }
    }
    assert ss[..|ss|] == ss;
    forall k ensures k in groups <==> exists j :: 0 <= j < |ss| && dateLabel(ss[j].startTime) == k {
      FilterNonEmpty(ss, dateLabel, k);
    }
  }

  /** Whether the page shows the "no saved sessions" message instead of the list. */
  predicate ShowsEmptyMessage(keys: seq<string>) {
    |keys| == 0
  }
}
