/**
 The cursor-addressed event stream of a run row, and what a client that polls it
 receives. The four reads inside one poll see four successive states of the row.
 */
module RunEvents {
  import opened Common
  import opened Json

  datatype RunEvent = RunEvent(seqNo: nat, kind: string, data: Value, graphRunId: Option<string>)

  /** The parts of a run row that polling reads. */
  datatype RunRow = RunRow(status: string, events: seq<RunEvent>, terminalSeq: Option<nat>)

  predicate IsTerminal(status: string) {
    status == "completed" || status == "completed_with_warnings" || status == "failed" || status == "cancelled"
    || status == "interrupted"
  }

  function LastSeq(row: RunRow): nat {
    if row.events == [] then 0 else row.events[|row.events| - 1].seqNo
  }

  // ---------------------------------------------------------------- Appending

  /** Events are numbered from one without gaps, and a terminal cursor points into them. */
  predicate Numbered(row: RunRow) {
    && (forall i | 0 <= i < |row.events| :: row.events[i].seqNo == i + 1)
    && (row.terminalSeq.Some? ==>
          && 1 <= row.terminalSeq.value <= |row.events| && IsTerminal(row.status)
          && row.events[row.terminalSeq.value - 1].kind == "finished")
  }

  /** The stream only grows, and the terminal cursor is set once. */
  predicate Evolves(before: RunRow, after: RunRow) {
    && before.events <= after.events
    && (before.terminalSeq.Some? ==> after.terminalSeq == before.terminalSeq)
  }

  /** The first stored event with a number, if there is one. */
  function FirstWith(events: seq<RunEvent>, n: nat): Option<RunEvent> {
    if events == [] then None else if events[0].seqNo == n then Some(events[0]) else FirstWith(events[1..], n)
  }

  lemma {:induction false} FirstWithSkips(events: seq<RunEvent>, n: nat, i: nat)
    requires i <= |events| && forall j | 0 <= j < i :: events[j].seqNo != n
    ensures FirstWith(events, n) == FirstWith(events[i..], n)
  {
    if i > 0 {
      FirstWithSkips(events[1..], n, i - 1);
      assert events[1..][i - 1..] == events[i..];
    }
  }

  lemma NumberedFirst(row: RunRow, n: nat)
    requires Numbered(row)
    ensures FirstWith(row.events, n) == if 1 <= n <= |row.events| then Some(row.events[n - 1]) else None
  {
    if 1 <= n <= |row.events| {
      FirstWithSkips(row.events, n, n - 1);
    } else {
      FirstWithSkips(row.events, n, |row.events|);
    }
  }

  /** The loop that looks for a stored event by its number. */
  method FindEvent(events: seq<RunEvent>, n: nat) returns (found: Option<RunEvent>)
    ensures found == FirstWith(events, n)
  {
    for i := 0 to |events|
      invariant forall j | 0 <= j < i :: events[j].seqNo != n
    {
      if events[i].seqNo == n {
        FirstWithSkips(events, n, i);
        return Some(events[i]);
      }
    }
    FirstWithSkips(events, n, |events|);
    return None;
  }

  /**
   `append_flow_run_event`: the next position is appended; an identical event at
   a position already written is an acknowledged retry; anything else is refused.
   `later` is what the second read sees when the swap was declined.
   */
  method AppendEvent(row: RunRow, later: RunRow, event: RunEvent) returns (r: Result<RunRow>)
    ensures event.seqNo == LastSeq(row) + 1 ==> r == Ok(row.(events := row.events + [event]))
    ensures event.seqNo != LastSeq(row) + 1 ==>
              r == if event.seqNo <= LastSeq(later) && FirstWith(later.events, event.seqNo) == Some(event)
                   then Ok(later) else Err
    ensures Numbered(row) && Numbered(later) && Evolves(row, later) && r.Ok? ==>
              && Numbered(r.value) && Evolves(row, r.value)
              && 1 <= event.seqNo <= |r.value.events| && r.value.events[event.seqNo - 1] == event
  {
    if event.seqNo == LastSeq(row) + 1 {
      return Ok(row.(events := row.events + [event]));
    }
    if event.seqNo <= LastSeq(later) {
      var existing := FindEvent(later.events, event.seqNo);
      if Numbered(later) {
        NumberedFirst(later, event.seqNo);
      }
      return if existing == Some(event) then Ok(later) else Err;
    }
    return Err;
  }

  /** The status an event's payload reports, when it is an object that reports one. */
  function ReportedStatus(data: Value): Option<string> {
    if !data.Object? then None else StatusMember(data.members)
  }

  function StatusMember(members: Members): Option<string> {
    if members == [] then None
    else if members[0].0 == "status" then (if members[0].1.Text? then Some(members[0].1.text) else None)
    else StatusMember(members[1..])
  }

  /** `mark_flow_run_terminal_event`: only a durable finishing event that matches the status commits. */
  method MarkTerminal(row: RunRow, seqNo: nat) returns (r: Option<RunRow>)
    ensures r.Some? ==> r.value == row.(terminalSeq := Some(seqNo))
    ensures r.Some? <==>
              && IsTerminal(row.status) && row.events != [] && seqNo <= LastSeq(row)
              && FirstWith(row.events, seqNo).Some? && FirstWith(row.events, seqNo).value.kind == "finished"
              && ReportedStatus(FirstWith(row.events, seqNo).value.data) == Some(row.status)
              && (row.terminalSeq.None? || row.terminalSeq == Some(seqNo))
    ensures Numbered(row) && r.Some? ==> Numbered(r.value) && Evolves(row, r.value)
  {
    if !IsTerminal(row.status) || row.events == [] || LastSeq(row) < seqNo {
      return None;
    }
    var found := FindEvent(row.events, seqNo);
    if Numbered(row) {
      NumberedFirst(row, seqNo);
    }
    if found.None? || found.value.kind != "finished" || ReportedStatus(found.value.data) != Some(row.status) {
      return None;
    }
    if row.terminalSeq.Some? {
      return if row.terminalSeq.value == seqNo then Some(row) else None;
    }
    return Some(row.(terminalSeq := Some(seqNo)));
  }

  // ------------------------------------------------------------------ Reading

  const PAGE: nat := 256

  function Min(a: nat, b: nat): nat { if a <= b then a else b }

  /** Where a page that starts after `cursor` ends, on a stream of `n` events. */
  function PageEnd(cursor: nat, n: nat): nat {
    if cursor >= n then cursor else Min(cursor + PAGE, n)
  }

  /** `flow_run_events_after`: bounded, strictly ordered, and an error on a gap. */
  method EventsAfter(row: RunRow, cursor: nat, limit: nat) returns (r: Result<seq<RunEvent>>)
    ensures r.Ok? ==> |r.value| <= if limit == 0 then 1 else limit
    ensures r.Ok? ==> forall i | 0 <= i < |r.value| :: r.value[i] in row.events && r.value[i].seqNo == cursor + 1 + i
    ensures Numbered(row) && limit >= 1 ==>
              r == Ok(if cursor >= |row.events| then [] else row.events[cursor..Min(cursor + limit, |row.events|)])
  {
    var page, expected := [], cursor;
    var i := 0;
    while i < |row.events| && |page| < (if limit == 0 then 1 else limit)
      invariant 0 <= i <= |row.events|
      invariant expected == cursor + |page| && |page| <= if limit == 0 then 1 else limit
      invariant forall j | 0 <= j < |page| :: page[j] in row.events && page[j].seqNo == cursor + 1 + j
      invariant Numbered(row) && limit >= 1 ==>
                  page == if i <= cursor then [] else row.events[cursor..i]
      decreases |row.events| - i
    {
      var event := row.events[i];
      if event.seqNo > cursor {
        if event.seqNo != expected + 1 {
          return Err;
        }
        expected := event.seqNo;
        page := page + [event];
      }
      i := i + 1;
    }
    return Ok(page);
  }

  datatype PollRun = PollRun(events: seq<RunEvent>, nextCursor: nat, done: bool)

  /** The page after `cursor`. */
  function Page(row: RunRow, cursor: nat): seq<RunEvent> {
    if cursor >= |row.events| then [] else row.events[cursor..PageEnd(cursor, |row.events|)]
  }

  /** What the four reads of one poll see: the row, the page, the last number, the terminal cursor. */
  datatype Reads = Reads(row: RunRow, page: RunRow, last: RunRow, mark: RunRow)

  /** What a poll answers when its reads saw `seen`. */
  function Polled(seen: Reads, cursor: nat): PollRun {
    var next := PageEnd(cursor, |seen.page.events|);
    PollRun(Page(seen.page, cursor), next,
            IsTerminal(seen.row.status) && seen.mark.terminalSeq.Some? && next >= seen.mark.terminalSeq.value
            && next >= LastSeq(seen.last))
  }

  method Poll(seen: Reads, cursor: nat) returns (r: Result<PollRun>)
    ensures cursor > LastSeq(seen.last) ==> r.Err?
    ensures Numbered(seen.page) && cursor <= LastSeq(seen.last) ==> r == Ok(Polled(seen, cursor))
    ensures r.Ok? && r.value.done ==>
              && IsTerminal(seen.row.status) && seen.mark.terminalSeq.Some?
              && r.value.nextCursor >= seen.mark.terminalSeq.value && r.value.nextCursor >= LastSeq(seen.last)
  {
    var page := EventsAfter(seen.page, cursor, PAGE);
    if page.Err? {
      return Err;
    }
    var lastSeq := LastSeq(seen.last);
    if cursor > lastSeq {
      return Err;
    }
    var events := page.value;
    var nextCursor := if events == [] then cursor else events[|events| - 1].seqNo;
    return Ok(PollRun(events, nextCursor,
                      IsTerminal(seen.row.status) && seen.mark.terminalSeq.Some?
                      && nextCursor >= seen.mark.terminalSeq.value && nextCursor >= lastSeq));
  }

  // ------------------------------------------------------------ Whole sessions

  predicate Ordered(seen: Reads) {
    && Numbered(seen.row) && Numbered(seen.page) && Numbered(seen.last) && Numbered(seen.mark)
    && Evolves(seen.row, seen.page) && Evolves(seen.page, seen.last) && Evolves(seen.last, seen.mark)
  }

  /** Successive polls of one row that others may extend during and between them. */
  predicate Session(polls: seq<Reads>) {
    polls == [] ||
    (var before, now := polls[..|polls| - 1], polls[|polls| - 1];
     Session(before) && Ordered(now) && (before != [] ==> Evolves(before[|before| - 1].mark, now.row)))
  }

  /** The cursor after the polls, when each fed the last answer back, starting at `start`. */
  function Cursor(polls: seq<Reads>, start: nat): nat {
    if polls == [] then start
    else Polled(polls[|polls| - 1], Cursor(polls[..|polls| - 1], start)).nextCursor
  }

  /** The events those polls delivered. */
  function Received(polls: seq<Reads>, start: nat): seq<RunEvent> {
    if polls == [] then []
    else
      var before := polls[..|polls| - 1];
      Received(before, start) + Polled(polls[|polls| - 1], Cursor(before, start)).events
  }

  lemma PageExtends(row: RunRow, all: seq<RunEvent>, start: nat, cursor: nat)
    requires row.events <= all && start <= cursor <= |row.events|
    ensures cursor <= PageEnd(cursor, |row.events|) <= |row.events|
    ensures all[start..cursor] + Page(row, cursor) == all[start..PageEnd(cursor, |row.events|)]
  {
  }

  /**
   A client that feeds each answer's cursor into the next poll receives every
   event once and in order, whatever is appended during or between its polls.
   */
  lemma {:induction false} EveryEventOnce(polls: seq<Reads>, start: nat, later: RunRow)
    requires Session(polls) && (polls != [] ==> start <= |polls[0].row.events|)
    requires if polls == [] then start <= |later.events| else Evolves(polls[|polls| - 1].mark, later)
    ensures start <= Cursor(polls, start) <= |later.events|
    ensures Received(polls, start) == later.events[start..Cursor(polls, start)]
    decreases |polls|
  {
    if polls != [] {
      var before, now := polls[..|polls| - 1], polls[|polls| - 1];
      EveryEventOnce(before, start, now.row);
      EveryEventOnce(before, start, later);
      PageExtends(now.page, later.events, start, Cursor(before, start));
    }
  }

  /** No poll of such a client is refused, so each answers `Polled`. */
  lemma PollsSucceed(polls: seq<Reads>, start: nat)
    requires Session(polls) && polls != [] && start <= |polls[0].row.events|
    ensures var before, now := polls[..|polls| - 1], polls[|polls| - 1];
            Numbered(now.page) && Cursor(before, start) <= LastSeq(now.last)
  {
    EveryEventOnce(polls[..|polls| - 1], start, polls[|polls| - 1].row);
  }

  /** `done` means the terminal event and everything before it have been delivered. */
  lemma DoneIsComplete(polls: seq<Reads>)
    requires Session(polls) && polls != []
    requires Polled(polls[|polls| - 1], Cursor(polls[..|polls| - 1], 0)).done
    ensures var now, received := polls[|polls| - 1], Received(polls, 0);
            && now.mark.terminalSeq.Some? && 1 <= now.mark.terminalSeq.value <= |received|
            && received[now.mark.terminalSeq.value - 1] == now.mark.events[now.mark.terminalSeq.value - 1]
            && received[now.mark.terminalSeq.value - 1].kind == "finished"
            && now.last.events <= received
  {
    EveryEventOnce(polls, 0, polls[|polls| - 1].mark);
  }

  // ----------------------------------------------------------- Settled streams

  /** `n` polls during which nobody writes. */
  function Quiet(row: RunRow, n: nat): seq<Reads> {
    if n == 0 then [] else Quiet(row, n - 1) + [Reads(row, row, row, row)]
  }

  lemma {:induction false} QuietCursor(row: RunRow, start: nat, n: nat)
    requires start <= |row.events|
    ensures Cursor(Quiet(row, n), start) == Min(start + PAGE * n, |row.events|)
  {
    if n > 0 {
      QuietCursor(row, start, n - 1);
      assert Quiet(row, n)[..|Quiet(row, n)| - 1] == Quiet(row, n - 1);
    }
  }

  /**
   On a settled stream of N events the poll after `n` earlier ones is done
   exactly when 256 * (n + 1) >= N - start: after max(1, ceil((N - start) / 256)) polls.
   */
  lemma SettledStreamFinishes(row: RunRow, start: nat, n: nat)
    requires Numbered(row) && row.terminalSeq.Some? && start <= |row.events|
    ensures Polled(Reads(row, row, row, row), Cursor(Quiet(row, n), start)).done <==>
              256 * (n + 1) >= |row.events| - start
  {
    QuietCursor(row, start, n);
  }
}
