/** What one pass of a monitoring worker's loop can come to, shared by both monitor
    scripts, and what each kind of pass costs: the commands it writes, the sessions it
    closes and the polling intervals it sleeps. */
module Polling {
  import opened Transport
  import opened CsvLog

  /** One pass of the loop: the device did not accept the connection; the board list
      did not mention board 04; or the board was read, with `failed` telling whether an
      exception (a CSV write that failed) ended the pass. */
  datatype Outcome<R> = Unreachable | NoBoard | Polled(reading: R, failed: bool)

  /** The commands a pass writes: nothing without a session, the probe alone when the
      board is missing, the probe and then the fetch when it is there. */
  function Script<R>(o: Outcome<R>, probe: seq<Sent>, fetch: seq<Sent>): seq<Sent> {
    match o
    case Unreachable => []
    case NoBoard => probe
    case Polled(_, _) => probe + fetch
  }

  /** Polling intervals slept. A missing board sleeps twice: once before `continue`
      and once more in the `finally` block that `continue` runs. */
  function Naps<R>(o: Outcome<R>): nat {
    if o.NoBoard? then 2 else 1
  }

  /** Sessions closed: none was opened when unreachable, and a missing board closes
      it before `continue` and again in `finally`. */
  function Closes<R>(o: Outcome<R>): nat {
    match o
    case Unreachable => 0
    case NoBoard => 2
    case Polled(_, _) => 1
  }

  /** How many passes found no board. */
  function Missing<R>(os: seq<Outcome<R>>): nat {
    if os == [] then 0 else Missing(os[..|os| - 1]) + (if os[|os| - 1].NoBoard? then 1 else 0)
  }

  /** How many passes opened a session. */
  function Connected<R>(os: seq<Outcome<R>>): nat {
    if os == [] then 0 else Connected(os[..|os| - 1]) + (if os[|os| - 1].Unreachable? then 0 else 1)
  }

  /** Sessions closed over several passes. */
  function TotalCloses<R>(os: seq<Outcome<R>>): nat {
    if os == [] then 0 else TotalCloses(os[..|os| - 1]) + Closes(os[|os| - 1])
  }

  /** Every session opened is closed once, and once more when its pass found no board;
      only a pass that opened a session can find no board. */
  lemma {:induction false} TotalClosesCount<R>(os: seq<Outcome<R>>)
    ensures TotalCloses(os) == Connected(os) + Missing(os)
    ensures Missing(os) <= Connected(os) <= |os|
    decreases |os|
  {
    if os != [] {
      TotalClosesCount(os[..|os| - 1]);
    }
  }

  /** Intervals slept over several passes. */
  function TotalNaps<R>(os: seq<Outcome<R>>): nat {
    if os == [] then 0 else TotalNaps(os[..|os| - 1]) + Naps(os[|os| - 1])
  }

  /** Every pass sleeps: one interval each, plus one more for each pass that found no board. */
  lemma {:induction false} TotalNapsCount<R>(os: seq<Outcome<R>>)
    ensures TotalNaps(os) == |os| + Missing(os)
    ensures |os| <= TotalNaps(os) <= 2 * |os|
    decreases |os|
  {
    if os != [] {
      TotalNapsCount(os[..|os| - 1]);
    }
  }

  /** Commands written over several passes, in order. */
  function Scripts<R>(os: seq<Outcome<R>>, probe: seq<Sent>, fetch: seq<Sent>): seq<Sent> {
    if os == [] then [] else Scripts(os[..|os| - 1], probe, fetch) + Script(os[|os| - 1], probe, fetch)
  }

  /** The outcomes of successive passes, where `cycle` gives the outcome of a pass from
      its inputs and the number of replies read before it: each pass reads the replies
      from where the one before it stopped. */
  function Passes<T, R>(ticks: seq<T>, cycle: (T, nat) -> Outcome<R>, start: nat, probe: seq<Sent>, fetch: seq<Sent>)
    : (os: seq<Outcome<R>>)
    ensures |os| == |ticks|
  {
    if ticks == [] then []
    else
      var before := Passes(ticks[..|ticks| - 1], cycle, start, probe, fetch);
      before + [cycle(ticks[|ticks| - 1], start + |Scripts(before, probe, fetch)|)]
  }

  /** The outcomes of a run of one more pass: those of the shorter run, then the new
      pass's, which reads the replies from where the shorter run stopped. */
  lemma PassesUnfold<T, R>(ticks: seq<T>, i: nat, cycle: (T, nat) -> Outcome<R>, start: nat, probe: seq<Sent>, fetch: seq<Sent>)
    requires i < |ticks|
    ensures var os := Passes(ticks[..i], cycle, start, probe, fetch);
      Passes(ticks[..i + 1], cycle, start, probe, fetch) == os + [cycle(ticks[i], start + |Scripts(os, probe, fetch)|)]
  {
    var t := ticks[..i + 1];
    assert t[..|t| - 1] == ticks[..i];
  }

  /** One more pass extends the outcomes of a run with its own, which reads the replies
      from `k`, where the run stopped. */
  lemma PassesStep<T, R>(ticks: seq<T>, i: nat, os: seq<Outcome<R>>, o: Outcome<R>, cycle: (T, nat) -> Outcome<R>,
                         start: nat, probe: seq<Sent>, fetch: seq<Sent>, k: nat)
    requires i < |ticks| && os == Passes(ticks[..i], cycle, start, probe, fetch)
    requires k == start + |Scripts(os, probe, fetch)| && o == cycle(ticks[i], k)
    ensures os + [o] == Passes(ticks[..i + 1], cycle, start, probe, fetch)
  {
    PassesUnfold(ticks, i, cycle, start, probe, fetch);
  }

  /** The rows a run of passes writes to one log, in order: one, made by `row`, for each
      pass that read the board and could write that log (`keep` of its inputs). */
  function Rows<T, R>(ticks: seq<T>, os: seq<Outcome<R>>, row: (T, R) -> Row, keep: T -> bool): seq<Row>
    requires |ticks| == |os|
  {
    if os == [] then []
    else
      var k := |os| - 1;
      Rows(ticks[..k], os[..k], row, keep) + if os[k].Polled? && keep(ticks[k]) then [row(ticks[k], os[k].reading)] else []
  }

  /** One more pass adds its row, if it read the board and could write the log, to those
      of the run. */
  lemma RowsStep<T, R>(ticks: seq<T>, os: seq<Outcome<R>>, o: Outcome<R>, row: (T, R) -> Row, keep: T -> bool)
    requires |os| < |ticks|
    ensures Rows(ticks[..|os| + 1], os + [o], row, keep) ==
      Rows(ticks[..|os|], os, row, keep) + if o.Polled? && keep(ticks[|os|]) then [row(ticks[|os|], o.reading)] else []
  {
    assert ticks[..|os| + 1][..|os|] == ticks[..|os|];
    assert (os + [o])[..|os|] == os;
  }

  /** A log written by every pass that reads the board and can write it holds, after one
      more pass, what it held before the run followed by the rows of the longer run. */
  lemma LogStep<T, R>(f0: File, f: File, header: Row, ticks: seq<T>, os: seq<Outcome<R>>, o: Outcome<R>,
                      row: (T, R) -> Row, keep: T -> bool)
    requires |os| < |ticks|
    requires f == AppendAll(f0, header, Rows(ticks[..|os|], os, row, keep))
    ensures (if o.Polled? && keep(ticks[|os|]) then Append(f, header, row(ticks[|os|], o.reading)) else f) ==
      AppendAll(f0, header, Rows(ticks[..|os| + 1], os + [o], row, keep))
  {
    var before := Rows(ticks[..|os|], os, row, keep);
    RowsStep(ticks, os, o, row, keep);
    if o.Polled? && keep(ticks[|os|]) {
      AppendAllSnoc(f0, header, before, row(ticks[|os|], o.reading));
    } else {
      assert before + [] == before;
    }
  }

  /** A run logs at most one row for each pass that opened a session and found the
      board, and exactly one for each such pass when every pass could write the log. */
  lemma {:induction false} RowsCount<T, R>(ticks: seq<T>, os: seq<Outcome<R>>, row: (T, R) -> Row, keep: T -> bool)
    requires |ticks| == |os|
    ensures |Rows(ticks, os, row, keep)| <= Connected(os) - Missing(os)
    ensures (forall i :: 0 <= i < |ticks| ==> keep(ticks[i])) ==> |Rows(ticks, os, row, keep)| == Connected(os) - Missing(os)
    decreases |os|
  {
    TotalClosesCount(os);
    if os != [] {
      var k := |os| - 1;
      RowsCount(ticks[..k], os[..k], row, keep);
      TotalClosesCount(os[..k]);
      if forall i :: 0 <= i < |ticks| ==> keep(ticks[i]) {
        assert forall i :: 0 <= i < k ==> ticks[..k][i] == ticks[i];
      }
    }
  }

  /** One more pass adds its naps to the total and its commands to the end of the log. */
  lemma Extend<R>(log: seq<Sent>, os: seq<Outcome<R>>, o: Outcome<R>, probe: seq<Sent>, fetch: seq<Sent>)
    ensures TotalNaps(os + [o]) == TotalNaps(os) + Naps(o)
    ensures TotalCloses(os + [o]) == TotalCloses(os) + Closes(o)
    ensures log + Scripts(os, probe, fetch) + Script(o, probe, fetch) == log + Scripts(os + [o], probe, fetch)
  {
    assert (os + [o])[..|os|] == os;
  }
}
