/** Task-aware compaction of the Orchestrator's events: what survives, what is archived, what is summarized. */
module OrchestratorCompaction {
  import opened Wrappers
  import opened Text

  datatype EventKind = Heartbeat | Highlight(completed: bool) | Other

  datatype Event = Event(kind: EventKind, task: string, text: string)

  /** What events are bucketed by: heartbeats and highlights by task, everything else together. */
  datatype Class = Beats(task: string) | Marks(task: string, completed: bool) | Rest

  function ClassOf(e: Event): Class {
    match e.kind
    case Heartbeat => Beats(e.task)
    case Highlight(completed) => Marks(e.task, completed)
    case Other => Rest
  }

  /** The events of one class, in order. */
  function Of(s: seq<Event>, c: Class): seq<Event> {
    if s == [] then [] else if ClassOf(s[0]) == c then [s[0]] + Of(s[1..], c) else Of(s[1..], c)
  }

  // ---- What survives -------------------------------------------------------------------------

  /** How many of the latest events of a class stay active. */
  function Limit(c: Class): Option<nat> {
    match c
    case Beats(_) => Some(1)
    case Marks(_, completed) => Some(if completed then 0 else 3)
    case Rest => None
  }

  /** An event stays while fewer of its class come after it than may stay. */
  predicate Stays(e: Event, later: seq<Event>) {
    var c := ClassOf(e);
    Limit(c).None? || |Of(later, c)| < Limit(c).value
  }

  function Survivors(s: seq<Event>): seq<Event> {
    if s == [] then [] else if Stays(s[0], s[1..]) then [s[0]] + Survivors(s[1..]) else Survivors(s[1..])
  }

  function Archived(s: seq<Event>): seq<Event> {
    if s == [] then [] else if Stays(s[0], s[1..]) then Archived(s[1..]) else [s[0]] + Archived(s[1..])
  }

  function Latest<T>(s: seq<T>, limit: Option<nat>): seq<T> {
    if limit.None? || |s| <= limit.value then s else s[|s| - limit.value..]
  }

  // ---- The summaries ---------------------------------------------------------------------------

  function Line(e: Event): string {
    "- [" + e.task + "] " + e.text
  }

  function Lines(items: seq<Event>): seq<string> {
    seq(|items|, i requires 0 <= i < |items| => Line(items[i]))
  }

  function Summarize(items: seq<Event>): string {
    "[compacted " + Decimal(|items|) + " items]\n" + Join(Lines(items), '\n')
  }

  function SummaryOf(s: seq<Event>, task: string): Event {
    Event(Highlight(true), task, Summarize(Of(s, Marks(task, true))))
  }

  function Summaries(s: seq<Event>, tasks: seq<string>): seq<Event> {
    seq(|tasks|, i requires 0 <= i < |tasks| => SummaryOf(s, tasks[i]))
  }

  /** The tasks with completed highlights, each once, in the order a hash map yields them. */
  ghost predicate ListsCompletedTasks(tasks: seq<string>, s: seq<Event>) {
    && (forall i, j :: 0 <= i < j < |tasks| ==> tasks[i] != tasks[j])
    && (forall t :: t in tasks <==> Of(s, Marks(t, true)) != [])
  }

  function Compacted(s: seq<Event>, tasks: seq<string>): seq<Event> {
    Survivors(s) + Summaries(s, tasks)
  }

  // ---- What a summary says -----------------------------------------------------------------------

  /** One line for each item, behind the header, whatever is in the items. */
  function Spelled(items: seq<Event>): string {
    if items == [] then "" else "\n- [" + items[0].task + "] " + items[0].text + Spelled(items[1..])
  }

  lemma SpelledCons(items: seq<Event>)
    requires items != []
    ensures Spelled(items) == "\n" + Line(items[0]) + Spelled(items[1..])
    ensures Lines(items) == [Line(items[0])] + Lines(items[1..])
  {
    var task, text := items[0].task, items[0].text;
    assert "\n- [" == "\n" + "- [";
    assert "\n- [" + task + "] " + text == "\n" + ("- [" + task + "] " + text);
  }

  lemma JoinCons(line: string, lines: seq<string>)
    ensures Join([line] + lines, '\n') == if lines == [] then line else line + "\n" + Join(lines, '\n')
  {
    assert ([line] + lines)[1..] == lines;
  }

  lemma {:induction false} LinesAreSpelled(items: seq<Event>)
    requires items != []
    ensures "\n" + Join(Lines(items), '\n') == Spelled(items)
  {
    SpelledCons(items);
    JoinCons(Line(items[0]), Lines(items[1..]));
    if |items| == 1 {
      EndOfSpelling(items, Line(items[0]));
    } else {
      LinesAreSpelled(items[1..]);
      Chain("\n", Line(items[0]), Join(Lines(items[1..]), '\n'), Spelled(items[1..]));
    }
  }

  lemma EndOfSpelling(items: seq<Event>, line: string)
    requires |items| == 1
    ensures "\n" + line + Spelled(items[1..]) == "\n" + line && Lines(items[1..]) == []
  {
  }

  lemma Chain(sep: string, line: string, joined: string, spelled: string)
    requires sep + joined == spelled
    ensures sep + (line + sep + joined) == sep + line + spelled
  {
  }

  lemma HeaderEnds(count: string, body: string)
    ensures "[compacted " + count + " items]\n" + body == "[compacted " + count + " items]" + ("\n" + body)
  {
    assert " items]\n" == " items]" + "\n";
  }

  lemma SummaryParts(items: seq<Event>)
    ensures Summarize(items) == "[compacted " + Decimal(|items|) + " items]" + ("\n" + Join(Lines(items), '\n'))
  {
    HeaderEnds(Decimal(|items|), Join(Lines(items), '\n'));
  }

  /** A summary counts its items and then spells each of them out, in order. */
  lemma SummaryIsSpelled(items: seq<Event>)
    requires items != []
    ensures Summarize(items) == "[compacted " + Decimal(|items|) + " items]" + Spelled(items)
  {
    LinesAreSpelled(items);
    SummaryParts(items);
  }

  /** No line of the item is broken in two. */
  predicate OneLine(e: Event) {
    '\n' !in e.task && '\n' !in e.text
  }

  lemma HeaderIsOneLine(n: nat)
    ensures '\n' !in "[compacted " + Decimal(n) + " items]"
  {
    DecimalIsDigits(n);
  }

  lemma LineIsOneLine(e: Event)
    requires OneLine(e)
    ensures '\n' !in Line(e)
  {
  }

  lemma LinesAreOneLine(items: seq<Event>)
    requires forall i :: 0 <= i < |items| ==> OneLine(items[i])
    ensures forall i :: 0 <= i < |items| ==> '\n' !in Lines(items)[i]
  {
    forall i | 0 <= i < |items| ensures '\n' !in Lines(items)[i] {
      LineIsOneLine(items[i]);
    }
  }

  lemma SplitLines(header: string, lines: seq<string>, text: string) returns (parts: seq<string>)
    requires '\n' !in header && lines != [] && forall i :: 0 <= i < |lines| ==> '\n' !in lines[i]
    requires text == header + ("\n" + Join(lines, '\n'))
    ensures parts == Split(text, '\n') && parts == [header] + lines
  {
    var body := Join(lines, '\n');
    parts := Split(text, '\n');
    SplitJoin(lines, '\n');
    SplitFirst(header, body, '\n');
    Regroup(header, ['\n'], body);
  }

  lemma LinesBehind(items: seq<Event>, header: string, text: string)
    requires items != [] && (forall i :: 0 <= i < |items| ==> OneLine(items[i])) && '\n' !in header
    requires text == header + ("\n" + Join(Lines(items), '\n'))
    ensures |Split(text, '\n')| == |items| + 1 && Split(text, '\n')[0] == header
    ensures forall i :: 0 <= i < |items| ==> Split(text, '\n')[i + 1] == Line(items[i])
  {
    LinesAreOneLine(items);
    var parts := SplitLines(header, Lines(items), text);
    assert forall i :: 0 <= i < |items| ==> parts[i + 1] == Lines(items)[i];
  }

  /** Read line by line, a summary of unbroken items is its header and then one line per item. */
  lemma SummaryReadsBack(items: seq<Event>)
    requires items != [] && forall i :: 0 <= i < |items| ==> OneLine(items[i])
    ensures var lines := Split(Summarize(items), '\n');
            && |lines| == |items| + 1 && lines[0] == "[compacted " + Decimal(|items|) + " items]"
            && forall i :: 0 <= i < |items| ==> lines[i + 1] == "- [" + items[i].task + "] " + items[i].text
  {
    HeaderIsOneLine(|items|);
    SummaryParts(items);
    LinesBehind(items, "[compacted " + Decimal(|items|) + " items]", Summarize(items));
  }

  lemma {:induction false} SpelledHolds(items: seq<Event>, e: Event)
    requires e in items
    ensures Contains(Spelled(items), "\n- [" + e.task + "] " + e.text)
  {
    var part := "\n- [" + e.task + "] " + e.text;
    if items[0] == e {
      assert part <= Spelled(items);
    } else {
      SpelledHolds(items[1..], e);
      ContainsBehind("\n- [" + items[0].task + "] " + items[0].text, Spelled(items[1..]), part);
    }
  }

  lemma {:induction false} OfHolds(s: seq<Event>, e: Event)
    requires e in s
    ensures e in Of(s, ClassOf(e))
  {
    if s[0] != e {
      OfHolds(s[1..], e);
    }
  }

  /** What a completed highlight said is still said in the active memory, by the summary of its task. */
  lemma CompletedIsStillTold(s: seq<Event>, tasks: seq<string>, e: Event)
    requires ListsCompletedTasks(tasks, s) && e in s && e.kind == Highlight(true)
    ensures exists told ::
              told in Compacted(s, tasks) && told.task == e.task && told.kind == Highlight(true)
              && Contains(told.text, "\n- [" + e.task + "] " + e.text)
  {
    var items := Of(s, Marks(e.task, true));
    OfHolds(s, e);
    assert e.task in tasks;
    var i :| 0 <= i < |tasks| && tasks[i] == e.task;
    var told := SummaryOf(s, e.task);
    assert Summaries(s, tasks)[i] == told;
    SummaryIsSpelled(items);
    SpelledHolds(items, e);
    ContainsBehind("[compacted " + Decimal(|items|) + " items]", Spelled(items), "\n- [" + e.task + "] " + e.text);
  }

  // ---- Conservation and per-task bounds --------------------------------------------------------

  /** Every event either survives or is archived, exactly once. */
  lemma {:induction false} CompactionConserves(s: seq<Event>)
    ensures multiset(s) == multiset(Survivors(s)) + multiset(Archived(s))
  {
    if s != [] {
      CompactionConserves(s[1..]);
      assert s == [s[0]] + s[1..];
    }
  }

  lemma OfCons(e: Event, rest: seq<Event>, c: Class)
    ensures Of([e] + rest, c) == if ClassOf(e) == c then [e] + Of(rest, c) else Of(rest, c)
  {
    assert ([e] + rest)[1..] == rest;
  }

  lemma SurvivorsCons(e: Event, rest: seq<Event>)
    ensures Survivors([e] + rest) == if Stays(e, rest) then [e] + Survivors(rest) else Survivors(rest)
    ensures Archived([e] + rest) == if Stays(e, rest) then Archived(rest) else [e] + Archived(rest)
  {
    assert ([e] + rest)[1..] == rest;
  }

  lemma LatestCons<T>(e: T, s: seq<T>, limit: Option<nat>)
    ensures Latest([e] + s, limit) ==
            if limit.None? || |s| < limit.value then [e] + Latest(s, limit) else Latest(s, limit)
  {
  }

  /** Of every class the latest survive: one heartbeat and three highlights in progress per task, no completed one, all others. */
  lemma {:induction false} LatestOfEachClassSurvive(s: seq<Event>, c: Class)
    ensures Of(Survivors(s), c) == Latest(Of(s, c), Limit(c))
  {
    if s != [] {
      LatestOfEachClassSurvive(s[1..], c);
      LatestCons(s[0], Of(s[1..], c), Limit(c));
      OfCons(s[0], Survivors(s[1..]), c);
    }
  }

  lemma {:induction false} SurvivorsSurvive(s: seq<Event>)
    ensures Survivors(Survivors(s)) == Survivors(s) && Archived(Survivors(s)) == []
  {
    if s != [] {
      var e, rest := s[0], s[1..];
      SurvivorsSurvive(rest);
      LatestOfEachClassSurvive(rest, ClassOf(e));
      SurvivorsCons(e, Survivors(rest));
    }
  }

  lemma {:induction false} OfAppend(a: seq<Event>, b: seq<Event>, c: Class)
    ensures Of(a + b, c) == Of(a, c) + Of(b, c)
  {
    if a == [] {
      assert a + b == b;
    } else {
      OfAppend(a[1..], b, c);
      assert a == [a[0]] + a[1..];
      Regroup([a[0]], a[1..], b);
      OfCons(a[0], a[1..] + b, c);
      Regroup([a[0]], Of(a[1..], c), Of(b, c));
    }
  }

  // ---- A second run ----------------------------------------------------------------------------

  predicate AllCompleted(s: seq<Event>) {
    forall i :: 0 <= i < |s| ==> s[i].kind == Highlight(true)
  }

  lemma {:induction false} CompletedOnlyMarks(s: seq<Event>, c: Class)
    requires AllCompleted(s) && !(c.Marks? && c.completed)
    ensures Of(s, c) == []
  {
    if s != [] {
      CompletedOnlyMarks(s[1..], c);
    }
  }

  lemma {:induction false} CompletedAllGo(s: seq<Event>)
    requires AllCompleted(s)
    ensures Survivors(s) == [] && Archived(s) == s
  {
    if s != [] {
      CompletedAllGo(s[1..]);
    }
  }

  lemma StaysBehind(e: Event, rest: seq<Event>, done: seq<Event>)
    requires AllCompleted(done)
    ensures Stays(e, rest + done) == Stays(e, rest)
  {
    OfAppend(rest, done, ClassOf(e));
    if e.kind != Highlight(true) {
      CompletedOnlyMarks(done, ClassOf(e));
    }
  }

  /** Completed highlights behind a list change nothing for the rest of it: they all go, the rest decides as before. */
  lemma {:induction false} CompletedBehind(s: seq<Event>, done: seq<Event>)
    requires AllCompleted(done)
    ensures Survivors(s + done) == Survivors(s) && Archived(s + done) == Archived(s) + done
  {
    if s == [] {
      assert s + done == done;
      CompletedAllGo(done);
    } else {
      CompletedBehind(s[1..], done);
      StaysBehind(s[0], s[1..], done);
      assert s == [s[0]] + s[1..];
      Regroup([s[0]], s[1..], done);
      SurvivorsCons(s[0], s[1..] + done);
      Regroup([s[0]], Archived(s[1..]), done);
    }
  }

  /** A second run keeps the survivors as they are and archives exactly the summaries of the first. */
  lemma SecondRun(s: seq<Event>, tasks: seq<string>)
    ensures Survivors(Compacted(s, tasks)) == Survivors(s)
    ensures Archived(Compacted(s, tasks)) == Summaries(s, tasks)
  {
    SurvivorsSurvive(s);
    CompletedBehind(Survivors(s), Summaries(s, tasks));
    assert [] + Summaries(s, tasks) == Summaries(s, tasks);
  }

  datatype State = State(active: seq<Event>, archive: seq<Event>)

  function CompactState(st: State, tasks: seq<string>): State {
    State(Compacted(st.active, tasks), st.archive + Archived(st.active))
  }

  lemma {:induction false} OfSummaries(s: seq<Event>, tasks: seq<string>, t: string)
    requires forall i, j :: 0 <= i < j < |tasks| ==> tasks[i] != tasks[j]
    ensures Of(Summaries(s, tasks), Marks(t, true)) == if t in tasks then [SummaryOf(s, t)] else []
  {
    if tasks != [] {
      assert Summaries(s, tasks)[1..] == Summaries(s, tasks[1..]);
      OfSummaries(s, tasks[1..], t);
    }
  }

  /** After a run, the completed highlights of a task are its one summary, or none if it had none. */
  lemma CompletedAfterRun(s: seq<Event>, tasks: seq<string>, t: string)
    requires ListsCompletedTasks(tasks, s)
    ensures Of(Compacted(s, tasks), Marks(t, true)) == if t in tasks then [SummaryOf(s, t)] else []
  {
    OfAppend(Survivors(s), Summaries(s, tasks), Marks(t, true));
    LatestOfEachClassSurvive(s, Marks(t, true));
    OfSummaries(s, tasks, t);
  }

  lemma EmptyIff<T>(s: seq<T>)
    ensures s == [] <==> forall x :: x !in s
  {
    if s != [] {
      assert s[0] in s;
    }
  }

  /** A second run leaves the state as it is exactly when no highlight was completed in the first place. */
  lemma IdempotentIff(st: State, first: seq<string>, second: seq<string>)
    requires ListsCompletedTasks(first, st.active)
    requires ListsCompletedTasks(second, CompactState(st, first).active)
    ensures CompactState(CompactState(st, first), second) == CompactState(st, first)
       <==> (forall t :: Of(st.active, Marks(t, true)) == [])
  {
    var once := CompactState(st, first);
    SecondRun(st.active, first);
    if first == [] {
      forall t ensures t !in second {
        CompletedAfterRun(st.active, first, t);
      }
      EmptyIff(second);
      assert once.archive + [] == once.archive;
    } else {
      assert first[0] in first;
      assert |CompactState(once, second).archive| > |once.archive|;
    }
  }

  /** Each further run wraps the summary of a task once more. */
  lemma SummaryIsWrapped(s: seq<Event>, tasks: seq<string>, t: string)
    requires ListsCompletedTasks(tasks, s) && t in tasks
    ensures SummaryOf(Compacted(s, tasks), t).text == "[compacted 1 items]\n" + ("- [" + t + "] " + SummaryOf(s, t).text)
  {
    CompletedAfterRun(s, tasks, t);
    assert Lines([SummaryOf(s, t)]) == [Line(SummaryOf(s, t))];
    assert Decimal(1) == "1";
  }

  function Runs(st: State, orders: seq<seq<string>>): State
    decreases |orders|
  {
    if orders == [] then st else Runs(CompactState(st, orders[0]), orders[1..])
  }

  ghost predicate ListsThroughout(st: State, orders: seq<seq<string>>)
    decreases |orders|
  {
    orders == [] || (ListsCompletedTasks(orders[0], st.active) && ListsThroughout(CompactState(st, orders[0]), orders[1..]))
  }

  /** Once a task has a completed highlight, every run archives something more, and no number of runs settles. */
  lemma {:induction false} CompletedTasksNeverSettle(st: State, orders: seq<seq<string>>, t: string)
    requires ListsThroughout(st, orders) && Of(st.active, Marks(t, true)) != []
    ensures |Runs(st, orders).archive| >= |st.archive| + |orders|
    ensures Of(Runs(st, orders).active, Marks(t, true)) != []
    decreases |orders|
  {
    if orders != [] {
      CompletedAfterRun(st.active, orders[0], t);
      SomethingGoes(st.active, t);
      CompletedTasksNeverSettle(CompactState(st, orders[0]), orders[1..], t);
    }
  }

  lemma {:induction false} SomethingGoes(s: seq<Event>, t: string)
    requires Of(s, Marks(t, true)) != []
    ensures Archived(s) != []
  {
    if ClassOf(s[0]) != Marks(t, true) {
      SomethingGoes(s[1..], t);
    }
  }

  // ---- The loops over indices --------------------------------------------------------------------

  predicate StaysAt(s: seq<Event>, i: nat)
    requires i < |s|
  {
    Stays(s[i], s[i + 1..])
  }

  function IndicesFrom(s: seq<Event>, n: nat, c: Class): seq<nat>
    requires n <= |s|
    decreases |s| - n
  {
    if n == |s| then [] else if ClassOf(s[n]) == c then [n] + IndicesFrom(s, n + 1, c) else IndicesFrom(s, n + 1, c)
  }

  lemma {:induction false} IndicesHoldClass(s: seq<Event>, n: nat, c: Class)
    requires n <= |s|
    ensures forall i :: i in IndicesFrom(s, n, c) <==> n <= i < |s| && ClassOf(s[i]) == c
    ensures |IndicesFrom(s, n, c)| == |Of(s[n..], c)|
    decreases |s| - n
  {
    if n < |s| {
      IndicesHoldClass(s, n + 1, c);
      assert s[n..][1..] == s[n + 1..];
    }
  }

  /** After the k-th index of a class come the ones behind it in the list. */
  lemma {:induction false} IndicesAfter(s: seq<Event>, n: nat, c: Class, k: nat)
    requires n <= |s| && k < |IndicesFrom(s, n, c)|
    ensures n <= IndicesFrom(s, n, c)[k] < |s|
    ensures IndicesFrom(s, IndicesFrom(s, n, c)[k] + 1, c) == IndicesFrom(s, n, c)[k + 1..]
    decreases |s| - n
  {
    if ClassOf(s[n]) != c {
      IndicesAfter(s, n + 1, c, k);
    } else if k > 0 {
      IndicesAfter(s, n + 1, c, k - 1);
    }
  }

  /** The k-th event of a class stays exactly when it is among the last ones its limit allows. */
  lemma StaysByPosition(s: seq<Event>, c: Class, k: nat)
    requires k < |IndicesFrom(s, 0, c)| && Limit(c).Some?
    ensures var ix := IndicesFrom(s, 0, c);
            ix[k] < |s| && (StaysAt(s, ix[k]) <==> |ix| - k <= Limit(c).value)
  {
    IndicesAfter(s, 0, c, k);
    var i := IndicesFrom(s, 0, c)[k];
    IndicesHoldClass(s, 0, c);
    IndicesHoldClass(s, i + 1, c);
  }

  lemma {:induction false} OfEmptyIff(s: seq<Event>, c: Class)
    ensures Of(s, c) == [] <==> forall i :: 0 <= i < |s| ==> ClassOf(s[i]) != c
  {
    if s != [] {
      OfEmptyIff(s[1..], c);
      assert forall i :: 0 < i < |s| ==> s[i] == s[1..][i - 1];
    }
  }

  predicate IsLatestBeat(s: seq<Event>, i: nat, n: nat)
    requires i < n <= |s|
  {
    s[i].kind == Heartbeat && forall j :: i < j < n ==> ClassOf(s[j]) != ClassOf(s[i])
  }

  lemma LatestBeatStays(s: seq<Event>, i: nat)
    requires i < |s| && s[i].kind == Heartbeat
    ensures IsLatestBeat(s, i, |s|) <==> StaysAt(s, i)
  {
    OfEmptyIff(s[i + 1..], ClassOf(s[i]));
    assert forall j :: i < j < |s| ==> s[j] == s[i + 1..][j - i - 1];
  }

  method LatestBeats(active: seq<Event>) returns (latest: set<nat>)
    ensures forall i :: i in latest <==> 0 <= i < |active| && active[i].kind == Heartbeat && StaysAt(active, i)
  {
    var perTask: map<string, nat> := map[];
    var n := 0;
    while n < |active|
      invariant 0 <= n <= |active|
      invariant forall t :: t in perTask ==> perTask[t] < n && active[perTask[t]].task == t && IsLatestBeat(active, perTask[t], n)
      invariant forall i :: 0 <= i < n && active[i].kind == Heartbeat ==> active[i].task in perTask
    {
      if active[n].kind == Heartbeat {
        perTask := perTask[active[n].task := n];
      }
      n := n + 1;
    }
    latest := set t | t in perTask :: perTask[t];
    forall i | 0 <= i < |active| && active[i].kind == Heartbeat
      ensures i in latest <==> StaysAt(active, i)
    {
      LatestBeatStays(active, i);
      var last := perTask[active[i].task];
      assert last in latest;
    }
  }

  // ---- Which events stay, index by index -----------------------------------------------------------

  /** A later event of the same task and kind. */
  predicate Follows(s: seq<Event>, i: nat, j: nat)
    requires i < |s|
  {
    i < j < |s| && s[j].kind == s[i].kind && s[j].task == s[i].task
  }

  function Followers(s: seq<Event>, i: nat): set<nat>
    requires i < |s|
  {
    set j: nat | i < j < |s| && Follows(s, i, j)
  }

  lemma {:induction false} IndicesAreDistinct(s: seq<Event>, n: nat, c: Class)
    requires n <= |s|
    ensures |Set(IndicesFrom(s, n, c))| == |IndicesFrom(s, n, c)|
    decreases |s| - n
  {
    if n < |s| {
      IndicesAreDistinct(s, n + 1, c);
      IndicesHoldClass(s, n + 1, c);
      SetCons(n, IndicesFrom(s, n + 1, c));
    }
  }

  lemma SetCons(n: nat, rest: seq<nat>)
    requires n !in rest
    ensures |Set([n] + rest)| == |Set(rest)| + 1
  {
    assert Set([n] + rest) == {n} + Set(rest);
  }

  function Set(ix: seq<nat>): set<nat> {
    set i | i in ix
  }

  lemma FollowersOfClass(s: seq<Event>, i: nat)
    requires i < |s| && s[i].kind != Other
    ensures |Of(s[i + 1..], ClassOf(s[i]))| == |Followers(s, i)|
  {
    var ix := IndicesFrom(s, i + 1, ClassOf(s[i]));
    IndicesHoldClass(s, i + 1, ClassOf(s[i]));
    IndicesAreDistinct(s, i + 1, ClassOf(s[i]));
    assert Set(ix) == Followers(s, i);
  }

  /**
   * A heartbeat stays when none of its task comes later, a highlight in progress when fewer than three
   * of its task do, a completed one never, anything else always.
   */
  lemma StaysIff(s: seq<Event>, i: nat)
    requires i < |s|
    ensures StaysAt(s, i) <==>
            match s[i].kind
            case Heartbeat => |Followers(s, i)| == 0
            case Highlight(completed) => !completed && |Followers(s, i)| < 3
            case Other => true
  {
    if s[i].kind != Other {
      FollowersOfClass(s, i);
    }
  }

  function Pick(s: seq<Event>, ix: seq<nat>): seq<Event>
    requires forall k :: 0 <= k < |ix| ==> ix[k] < |s|
  {
    seq(|ix|, k requires 0 <= k < |ix| => s[ix[k]])
  }

  /** `kept` and `gone` list, in order, the indices from `n` on whose events stay and go. */
  ghost predicate Parts(s: seq<Event>, n: nat, kept: seq<nat>, gone: seq<nat>) {
    && Ascending(kept) && Ascending(gone)
    && (forall k :: 0 <= k < |kept| ==> n <= kept[k] < |s|) && (forall k :: 0 <= k < |gone| ==> n <= gone[k] < |s|)
    && (forall i :: n <= i < |s| ==> (i in kept <==> StaysAt(s, i)) && (i in gone <==> !StaysAt(s, i)))
  }

  lemma PickCons(s: seq<Event>, n: nat, ix: seq<nat>)
    requires n < |s| && forall k :: 0 <= k < |ix| ==> ix[k] < |s|
    ensures Pick(s, [n] + ix) == [s[n]] + Pick(s, ix)
  {
  }

  lemma PartsNext(s: seq<Event>, n: nat, kept: seq<nat>, gone: seq<nat>)
    requires n < |s| && Parts(s, n + 1, kept, gone)
    ensures if StaysAt(s, n) then Parts(s, n, [n] + kept, gone) else Parts(s, n, kept, [n] + gone)
  {
    assert n !in kept && n !in gone;
    forall i ensures i in [n] + kept <==> i == n || i in kept {
    }
    forall i ensures i in [n] + gone <==> i == n || i in gone {
    }
  }

  /** Survivors and archived events are those that stay and those that go, in the order they had. */
  lemma {:induction false} OrderIsKept(s: seq<Event>, n: nat) returns (kept: seq<nat>, gone: seq<nat>)
    requires n <= |s|
    ensures Parts(s, n, kept, gone)
    ensures Survivors(s[n..]) == Pick(s, kept) && Archived(s[n..]) == Pick(s, gone)
    decreases |s| - n
  {
    kept, gone := [], [];
    if n < |s| {
      kept, gone := OrderIsKept(s, n + 1);
      assert s[n..][0] == s[n] && s[n..][1..] == s[n + 1..];
      PartsNext(s, n, kept, gone);
      if StaysAt(s, n) {
        PickCons(s, n, kept);
        kept := [n] + kept;
      } else {
        PickCons(s, n, gone);
        gone := [n] + gone;
      }
    }
  }

  // ---- The buckets of highlights -------------------------------------------------------------------

  type Buckets = map<(string, bool), seq<nat>>

  function Bucket(b: Buckets, key: (string, bool)): seq<nat> {
    if key in b then b[key] else []
  }

  ghost predicate AreBuckets(b: Buckets, s: seq<Event>) {
    && (forall key :: Bucket(b, key) == IndicesFrom(s, 0, Marks(key.0, key.1)))
    && (forall key :: key in b ==> b[key] != [])
  }

  /** The buckets hold what the list holds up to `n`. */
  ghost predicate FilledTo(b: Buckets, s: seq<Event>, n: nat)
    requires n <= |s|
  {
    && (forall key :: Bucket(b, key) + IndicesFrom(s, n, Marks(key.0, key.1)) == IndicesFrom(s, 0, Marks(key.0, key.1)))
    && (forall key :: key in b ==> b[key] != [])
  }

  function PushIndex(b: Buckets, s: seq<Event>, n: nat): Buckets
    requires n < |s|
  {
    if s[n].kind.Highlight? then
      var key := (s[n].task, s[n].kind.completed);
      b[key := Bucket(b, key) + [n]]
    else b
  }

  lemma FillOneMore(b: Buckets, s: seq<Event>, n: nat)
    requires n < |s| && FilledTo(b, s, n)
    ensures FilledTo(PushIndex(b, s, n), s, n + 1)
  {
    var b' := PushIndex(b, s, n);
    forall key: (string, bool)
      ensures Bucket(b', key) + IndicesFrom(s, n + 1, Marks(key.0, key.1)) == IndicesFrom(s, 0, Marks(key.0, key.1))
    {
      var rest := IndicesFrom(s, n + 1, Marks(key.0, key.1));
      assert Bucket(b, key) + IndicesFrom(s, n, Marks(key.0, key.1)) == IndicesFrom(s, 0, Marks(key.0, key.1));
      if ClassOf(s[n]) == Marks(key.0, key.1) {
        Regroup(Bucket(b, key), [n], rest);
      }
    }
  }

  method FillBuckets(active: seq<Event>) returns (b: Buckets)
    ensures AreBuckets(b, active)
  {
    b := map[];
    var n := 0;
    while n < |active|
      invariant 0 <= n <= |active|
      invariant FilledTo(b, active, n)
    {
      FillOneMore(b, active, n);
      if active[n].kind.Highlight? {
        var key := (active[n].task, active[n].kind.completed);
        b := b[key := Bucket(b, key) + [n]];
      }
      n := n + 1;
    }
    forall key: (string, bool) ensures Bucket(b, key) == IndicesFrom(active, 0, Marks(key.0, key.1)) {
      assert Bucket(b, key) + [] == Bucket(b, key);
      assert Bucket(b, key) + IndicesFrom(active, n, Marks(key.0, key.1)) == IndicesFrom(active, 0, Marks(key.0, key.1));
    }
  }

  // ---- The list of indices to archive ----------------------------------------------------------------

  ghost predicate Goes(s: seq<Event>, i: nat) {
    i < |s| && !StaysAt(s, i)
  }

  /** The part of a bucket that is archived: all of a completed one, all but the last three of the other. */
  function Older(ix: seq<nat>, completed: bool): seq<nat> {
    if completed then ix else ix[..|ix| - (if |ix| < 3 then |ix| else 3)]
  }

  lemma OlderGoes(s: seq<Event>, key: (string, bool), i: nat)
    ensures i in Older(IndicesFrom(s, 0, Marks(key.0, key.1)), key.1) <==>
            i < |s| && ClassOf(s[i]) == Marks(key.0, key.1) && !StaysAt(s, i)
  {
    var c := Marks(key.0, key.1);
    var ix := IndicesFrom(s, 0, c);
    var older := Older(ix, key.1);
    IndicesHoldClass(s, 0, c);
    if i in older {
      var k :| 0 <= k < |older| && older[k] == i;
      StaysByPosition(s, c, k);
    } else if i < |s| && ClassOf(s[i]) == c {
      var k :| 0 <= k < |ix| && ix[k] == i;
      StaysByPosition(s, c, k);
    }
  }

  ghost predicate GoesInBucket(s: seq<Event>, i: nat, key: (string, bool)) {
    Goes(s, i) && ClassOf(s[i]) == Marks(key.0, key.1)
  }

  ghost predicate GoesOutside(s: seq<Event>, i: nat, rest: set<(string, bool)>) {
    Goes(s, i) && s[i].kind.Highlight? && (s[i].task, s[i].kind.completed) !in rest
  }

  lemma AllBucketsMissing(s: seq<Event>, b: Buckets, i: nat)
    requires AreBuckets(b, s)
    ensures !GoesOutside(s, i, b.Keys)
  {
    if Goes(s, i) && s[i].kind.Highlight? {
      var key := (s[i].task, s[i].kind.completed);
      IndicesHoldClass(s, 0, Marks(key.0, key.1));
      assert i in Bucket(b, key);
    }
  }

  method HighlightsToArchive(active: seq<Event>, b: Buckets) returns (idx: seq<nat>)
    requires AreBuckets(b, active)
    ensures forall i: nat :: i in idx <==> GoesOutside(active, i, {})
  {
    idx := [];
    var rest := b.Keys;
    forall i: nat ensures !GoesOutside(active, i, rest) {
      AllBucketsMissing(active, b, i);
    }
    while rest != {}
      invariant rest <= b.Keys
      invariant forall i: nat :: i in idx <==> GoesOutside(active, i, rest)
      decreases |rest|
    {
      var key :| key in rest;
      forall i: nat
        ensures i in Older(b[key], key.1) <==> GoesInBucket(active, i, key)
        ensures GoesOutside(active, i, rest - {key}) <==> GoesOutside(active, i, rest) || GoesInBucket(active, i, key)
      {
        assert Bucket(b, key) == b[key];
        OlderGoes(active, key, i);
      }
      idx := idx + Older(b[key], key.1);
      rest := rest - {key};
    }
  }

  method IndicesToArchive(active: seq<Event>, b: Buckets, latest: set<nat>) returns (idx: seq<nat>)
    requires AreBuckets(b, active)
    requires forall i: nat :: i in latest <==> i < |active| && active[i].kind == Heartbeat && StaysAt(active, i)
    ensures forall i: nat :: i in idx <==> Goes(active, i)
  {
    idx := HighlightsToArchive(active, b);
    var n := 0;
    while n < |active|
      invariant 0 <= n <= |active|
      invariant forall i: nat :: i in idx <==> GoesOutside(active, i, {}) || (Goes(active, i) && active[i].kind == Heartbeat && i < n)
    {
      if active[n].kind == Heartbeat && n !in latest {
        idx := idx + [n];
      }
      n := n + 1;
    }
    forall i: nat ensures Goes(active, i) ==> active[i].kind != Other {
    }
  }

  // ---- Sorting the indices, and the passes over them ----------------------------------------------

  predicate Ascending(s: seq<nat>) {
    forall i, j :: 0 <= i < j < |s| ==> s[i] < s[j]
  }

  /** Sorted insertion without duplicates: what sorting and deduplicating a list comes to. */
  function InsertIndex(n: nat, s: seq<nat>): seq<nat> {
    if s == [] || n < s[0] then [n] + s else if n == s[0] then s else [s[0]] + InsertIndex(n, s[1..])
  }

  lemma {:induction false} InsertIndexKeeps(n: nat, s: seq<nat>)
    requires Ascending(s)
    ensures Ascending(InsertIndex(n, s))
    ensures forall i :: i in InsertIndex(n, s) <==> i == n || i in s
  {
    if s != [] && s[0] < n {
      var rest := InsertIndex(n, s[1..]);
      InsertIndexKeeps(n, s[1..]);
      assert forall i :: i in s <==> i == s[0] || i in s[1..];
      forall k | 0 <= k < |rest| ensures s[0] < rest[k] {
        assert rest[k] in rest;
        assert rest[k] == n || rest[k] in s[1..];
      }
    }
  }

  function SortDedup(s: seq<nat>): seq<nat> {
    if s == [] then [] else InsertIndex(s[0], SortDedup(s[1..]))
  }

  lemma {:induction false} SortDedupKeeps(s: seq<nat>)
    ensures Ascending(SortDedup(s))
    ensures forall i :: i in SortDedup(s) <==> i in s
  {
    if s != [] {
      SortDedupKeeps(s[1..]);
      InsertIndexKeeps(s[0], SortDedup(s[1..]));
    }
  }

  /** A stretch in which everything stays adds nothing to the archive. */
  lemma ArchivedGoes(s: seq<Event>, i: nat)
    requires Goes(s, i)
    ensures Archived(s[i..]) == [s[i]] + Archived(s[i + 1..])
  {
    assert s[i..][0] == s[i] && s[i..][1..] == s[i + 1..];
  }

  lemma {:induction false} ArchivedSkips(s: seq<Event>, from: nat, upto: nat)
    requires from <= upto <= |s| && forall i :: from <= i < upto ==> StaysAt(s, i)
    ensures Archived(s[from..]) == Archived(s[upto..])
    decreases upto - from
  {
    if from < upto {
      assert StaysAt(s, from);
      assert s[from..][0] == s[from] && s[from..][1..] == s[from + 1..];
      ArchivedSkips(s, from + 1, upto);
    }
  }

  function EventsAt(s: seq<Event>, ix: seq<nat>): seq<Event> {
    if ix == [] then [] else (if ix[0] < |s| then [s[ix[0]]] else []) + EventsAt(s, ix[1..])
  }

  lemma {:induction false} EventsOfClass(s: seq<Event>, n: nat, c: Class)
    requires n <= |s|
    ensures EventsAt(s, IndicesFrom(s, n, c)) == Of(s[n..], c)
    decreases |s| - n
  {
    if n < |s| {
      EventsOfClass(s, n + 1, c);
      assert s[n..][1..] == s[n + 1..];
      assert ([n] + IndicesFrom(s, n + 1, c))[1..] == IndicesFrom(s, n + 1, c);
    }
  }

  lemma BucketEvents(s: seq<Event>, b: Buckets, key: (string, bool))
    requires AreBuckets(b, s) && key in b
    ensures EventsAt(s, b[key]) == Of(s, Marks(key.0, key.1))
  {
    assert Bucket(b, key) == b[key];
    EventsOfClass(s, 0, Marks(key.0, key.1));
    assert s[0..] == s;
  }

  lemma SummariesSnoc(s: seq<Event>, tasks: seq<string>, t: string)
    ensures Summaries(s, tasks + [t]) == Summaries(s, tasks) + [SummaryOf(s, t)]
  {
  }

  /** The completed tasks met so far, each once. */
  ghost predicate TasksListed(tasks: seq<string>, b: Buckets, rest: set<(string, bool)>) {
    && (forall i, j :: 0 <= i < j < |tasks| ==> tasks[i] != tasks[j])
    && (forall t :: t in tasks <==> (t, true) in b && (t, true) !in rest)
  }

  lemma ListNextTask(tasks: seq<string>, b: Buckets, rest: set<(string, bool)>, key: (string, bool))
    requires TasksListed(tasks, b, rest) && key in rest && key in b
    ensures TasksListed(if key.1 then tasks + [key.0] else tasks, b, rest - {key})
  {
    if key.1 {
      assert key == (key.0, true) && key.0 !in tasks;
      var next := tasks + [key.0];
      forall i, j | 0 <= i < j < |next| ensures next[i] != next[j] {
        assert tasks[i] in tasks;
      }
      forall t ensures t in next <==> (t, true) in b && (t, true) !in rest - {key} {
        assert (t, true) == key <==> t == key.0;
      }
    }
  }

  lemma AllTasksListed(s: seq<Event>, b: Buckets, tasks: seq<string>)
    requires AreBuckets(b, s) && TasksListed(tasks, b, {})
    ensures ListsCompletedTasks(tasks, s)
  {
    forall t ensures t in tasks <==> Of(s, Marks(t, true)) != [] {
      var key := (t, true);
      assert Bucket(b, key) == IndicesFrom(s, 0, Marks(t, true));
      IndicesHoldClass(s, 0, Marks(t, true));
      assert s[0..] == s;
    }
  }

  /** `from` lies right behind the first `j` of the indices that go. */
  ghost predicate Behind(s: seq<Event>, idx: seq<nat>, j: nat, from: nat) {
    && Ascending(idx) && (forall i: nat :: i in idx <==> Goes(s, i))
    && j <= |idx| && from <= |s| && from == if j == 0 then 0 else idx[j - 1] + 1
  }

  lemma ArchivedNext(s: seq<Event>, idx: seq<nat>, j: nat, from: nat)
    requires Behind(s, idx, j, from) && j < |idx|
    ensures idx[j] < |s| && Archived(s[from..]) == [s[idx[j]]] + Archived(s[idx[j] + 1..])
    ensures Behind(s, idx, j + 1, idx[j] + 1)
  {
    assert idx[j] in idx && Goes(s, idx[j]);
    forall k | from <= k < idx[j] ensures StaysAt(s, k) {
      NotListed(idx, j, k);
    }
    assert from <= idx[j];
    ArchivedSkips(s, from, idx[j]);
    ArchivedGoes(s, idx[j]);
  }

  lemma ArchivedRest(s: seq<Event>, idx: seq<nat>, from: nat)
    requires Behind(s, idx, |idx|, from)
    ensures Archived(s[from..]) == []
  {
    forall k | from <= k < |s| ensures StaysAt(s, k) {
      NotListed(idx, |idx|, k);
    }
    ArchivedSkips(s, from, |s|);
  }

  class EventMemory {
    var active: seq<Event>
    var archive: seq<Event>

    ghost function St(): State
      reads this
    {
      State(active, archive)
    }

    method ArchiveAt(idx: seq<nat>)
      requires Ascending(idx) && forall i: nat :: i in idx <==> Goes(active, i)
      modifies this`archive
      ensures archive == old(archive) + Archived(active)
    {
      var j := 0;
      ghost var from := 0;
      assert active[0..] == active;
      while j < |idx|
        invariant 0 <= j <= |idx| && Behind(active, idx, j, from)
        invariant archive + Archived(active[from..]) == old(archive) + Archived(active)
      {
        var i := idx[j];
        ArchivedNext(active, idx, j, from);
        Regroup(archive, [active[i]], Archived(active[i + 1..]));
        archive := archive + [active[i]];
        from := i + 1;
        j := j + 1;
      }
      ArchivedRest(active, idx, from);
    }

    method SurvivorsOutside(idx: seq<nat>) returns (out: seq<Event>)
      requires forall i: nat :: i in idx <==> Goes(active, i)
      ensures out == Survivors(active)
    {
      out := [];
      var n := 0;
      assert active[0..] == active;
      while n < |active|
        invariant 0 <= n <= |active|
        invariant out + Survivors(active[n..]) == Survivors(active)
      {
        assert active[n..][0] == active[n] && active[n..][1..] == active[n + 1..];
        assert n in idx <==> !StaysAt(active, n);
        if n !in idx {
          Regroup(out, [active[n]], Survivors(active[n + 1..]));
          out := out + [active[n]];
        }
        n := n + 1;
      }
    }

    /** The buckets of completed highlights become one summary each, in whatever order the map yields them. */
    method CompletedSummaries(b: Buckets) returns (out: seq<Event>, ghost tasks: seq<string>)
      requires AreBuckets(b, active)
      ensures ListsCompletedTasks(tasks, active) && out == Summaries(active, tasks)
    {
      out, tasks := [], [];
      var rest := b.Keys;
      while rest != {}
        invariant rest <= b.Keys
        invariant TasksListed(tasks, b, rest)
        invariant out == Summaries(active, tasks)
        decreases |rest|
      {
        var key :| key in rest;
        ListNextTask(tasks, b, rest, key);
        if key.1 && b[key] != [] {
          BucketEvents(active, b, key);
          SummariesSnoc(active, tasks, key.0);
          out := out + [Event(Highlight(true), key.0, Summarize(EventsAt(active, b[key])))];
          tasks := tasks + [key.0];
        }
        rest := rest - {key};
      }
      AllTasksListed(active, b, tasks);
    }

    method Compact()
      modifies this
      ensures exists tasks :: ListsCompletedTasks(tasks, old(active)) && St() == CompactState(old(St()), tasks)
    {
      var latest := LatestBeats(active);
      var buckets := FillBuckets(active);
      var found := IndicesToArchive(active, buckets, latest);
      SortDedupKeeps(found);
      var idx := SortDedup(found);
      ArchiveAt(idx);
      var summaries, tasks := CompletedSummaries(buckets);
      var survivors := SurvivorsOutside(idx);
      active := survivors + summaries;
    }
  }

  lemma NotListed(idx: seq<nat>, j: nat, k: nat)
    requires Ascending(idx) && j <= |idx|
    requires (if j == 0 then 0 else idx[j - 1] + 1) <= k && (j < |idx| ==> k < idx[j])
    ensures k !in idx
  {
  }
}
