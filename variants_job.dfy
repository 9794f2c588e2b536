/** The background job that lists remote variant products in chunks, so that the products
    service inserts the ones missing locally. Models ListRemoteVariantsJobHandler. */
module VariantsJob {
  import opened Php

  /** Default maximum number of variant products per `listProducts` request. */
  const DefaultMaxPerRequest: int := 50

  /** A job argument as `run` receives it. */
  datatype JobArg = Null | IdList(ids: seq<string>) | IntArg(n: int) | Text(s: string)

  /** `TypeHelper::int($value, 0)`. */
  function ArgInt(a: JobArg): int {
    match a
    case IntArg(n) => n
    case Text(s) => StringToInt(s)
    case _ => 0
  }

  /** `TypeHelper::arrayOfStrings($value)`. */
  function ArgIds(a: JobArg): seq<string> {
    if a.IdList? then a.ids else []
  }

  /** `maxPerRequestOrDefault`: the argument when it is a positive integer, else the default. */
  function MaxPerRequestOrDefault(a: JobArg): (r: int)
    ensures r > 0
    ensures r == DefaultMaxPerRequest || r == ArgInt(a)
  {
    var intMax := ArgInt(a);
    if intMax > 0 then intMax else DefaultMaxPerRequest
  }

  /** `getChunkedIds`: `array_chunk(array_unique($ids), $max)`. The chunks put back together are
      the IDs without repetitions, in first-occurrence order; every chunk has `max` IDs except
      the last, which has between one and `max`. */
  function GetChunkedIds(ids: seq<string>, maxPerRequest: int): (r: seq<seq<string>>)
    requires maxPerRequest > 0
    ensures Flatten(r) == Dedup(ids)
    ensures r == [] <==> ids == []
    ensures forall i :: 0 <= i < |r| ==> 0 < |r[i]| <= maxPerRequest
    ensures forall i :: 0 <= i < |r| - 1 ==> |r[i]| == maxPerRequest
  {
    DedupProperties(ids);
    assert ids != [] ==> ids[0] in Dedup(ids);
    ChunkProperties(Dedup(ids), maxPerRequest);
    Chunk(Dedup(ids), maxPerRequest)
  }

  /** `array_pad($args, $n, null)`. */
  function Pad(args: seq<JobArg>, n: nat): (r: seq<JobArg>)
    ensures |r| >= n
    ensures forall i :: 0 <= i < |r| ==> r[i] == if i < |args| then args[i] else Null
  {
    if |args| >= n then args else args + seq(n - |args|, _ => Null)
  }

  /** What the handler does: `listProducts` calls with the IDs set on the list operation at that
      moment, and Sentry reports of a failed call. */
  datatype JobEvent = ListCall(ids: seq<string>) | ListFailed(ids: seq<string>)

  /** The events of `processVariants` over the given chunks; `fails` says which calls throw. */
  function ProcessEvents(chunks: seq<seq<string>>, fails: seq<string> -> bool): seq<JobEvent>
    decreases |chunks|
  {
    if chunks == [] then []
    else
      ProcessEvents(chunks[..|chunks| - 1], fails) + ChunkEvents(chunks[|chunks| - 1], fails)
  }

  /** The IDs of the `listProducts` calls among the events, in order. */
  function Calls(events: seq<JobEvent>): seq<seq<string>>
    decreases |events|
  {
    if events == [] then []
    else
      var e := events[|events| - 1];
      Calls(events[..|events| - 1]) + (if e.ListCall? then [e.ids] else [])
  }

  /** The IDs of the reported failures among the events, in order. */
  function Failures(events: seq<JobEvent>): seq<seq<string>>
    decreases |events|
  {
    if events == [] then []
    else
      var e := events[|events| - 1];
      Failures(events[..|events| - 1]) + (if e.ListFailed? then [e.ids] else [])
  }

  /** The chunks the predicate says fail, in order. */
  function FailingChunks(chunks: seq<seq<string>>, fails: seq<string> -> bool): (r: seq<seq<string>>)
    ensures forall c :: c in r <==> c in chunks && fails(c)
    decreases |chunks|
  {
    if chunks == [] then []
    else
      var c := chunks[|chunks| - 1];
      assert forall x :: x in chunks <==> x in chunks[..|chunks| - 1] || x == c;
      FailingChunks(chunks[..|chunks| - 1], fails) + (if fails(c) then [c] else [])
  }

  lemma {:induction false} CallsAppend(a: seq<JobEvent>, b: seq<JobEvent>)
    ensures Calls(a + b) == Calls(a) + Calls(b)
    ensures Failures(a + b) == Failures(a) + Failures(b)
    decreases |b|
  {
    if b == [] {
      assert a + b == a;
    } else {
      assert (a + b)[..|a + b| - 1] == a + b[..|b| - 1];
      assert (a + b)[|a + b| - 1] == b[|b| - 1];
      CallsAppend(a, b[..|b| - 1]);
    }
  }

  lemma SingleEvent(e: JobEvent)
    ensures Calls([e]) == if e.ListCall? then [e.ids] else []
    ensures Failures([e]) == if e.ListFailed? then [e.ids] else []
  {
    assert [e][..0] == [];
  }

  /** The events of one chunk: its call, and a report when the call throws. */
  function ChunkEvents(c: seq<string>, fails: seq<string> -> bool): seq<JobEvent> {
    [ListCall(c)] + (if fails(c) then [ListFailed(c)] else [])
  }

  lemma ChunkEventsContent(c: seq<string>, fails: seq<string> -> bool)
    ensures Calls(ChunkEvents(c, fails)) == [c]
    ensures Failures(ChunkEvents(c, fails)) == if fails(c) then [c] else []
  {
    var failed := if fails(c) then [ListFailed(c)] else [];
    CallsAppend([ListCall(c)], failed);
    SingleEvent(ListCall(c));
    if fails(c) {
      SingleEvent(ListFailed(c));
    }
  }

  lemma ProcessEventsStep(chunks: seq<seq<string>>, fails: seq<string> -> bool)
    requires chunks != []
    ensures var init := ProcessEvents(chunks[..|chunks| - 1], fails);
      && Calls(ProcessEvents(chunks, fails)) == Calls(init) + [chunks[|chunks| - 1]]
      && Failures(ProcessEvents(chunks, fails)) == Failures(init) + (if fails(chunks[|chunks| - 1]) then [chunks[|chunks| - 1]] else [])
  {
    var init := ProcessEvents(chunks[..|chunks| - 1], fails);
    var last := ChunkEvents(chunks[|chunks| - 1], fails);
    assert ProcessEvents(chunks, fails) == init + last;
    CallsAppend(init, last);
    ChunkEventsContent(chunks[|chunks| - 1], fails);
  }

  /** `processVariants` makes exactly one `listProducts` call per chunk, in chunk order, and a
      failing call is reported without stopping the later chunks. */
  lemma {:induction false} OneCallPerChunk(chunks: seq<seq<string>>, fails: seq<string> -> bool)
    ensures Calls(ProcessEvents(chunks, fails)) == chunks
    ensures Failures(ProcessEvents(chunks, fails)) == FailingChunks(chunks, fails)
    decreases |chunks|
  {
    if chunks != [] {
      OneCallPerChunk(chunks[..|chunks| - 1], fails);
      ProcessEventsStep(chunks, fails);
      assert chunks == chunks[..|chunks| - 1] + [chunks[|chunks| - 1]];
    }
  }

  /** Every ID handed to the job is requested exactly once: the IDs of all calls, put
      together, are the IDs without repetitions. With no IDs there is no call at all. */
  lemma ProcessVariantsCoversIds(ids: seq<string>, maxPerRequest: int, fails: seq<string> -> bool)
    requires maxPerRequest > 0
    ensures var events := ProcessEvents(GetChunkedIds(ids, maxPerRequest), fails);
      && Flatten(Calls(events)) == Dedup(ids)
      && NoDuplicates(Flatten(Calls(events)))
      && (ids == [] ==> events == [])
  {
    OneCallPerChunk(GetChunkedIds(ids, maxPerRequest), fails);
    DedupProperties(ids);
  }

  /** `scheduleIfHasVariants`: what happened to the job. */
  datatype ScheduleOutcome = NothingToSchedule | Scheduled(args: seq<string>) | ScheduleFailed(args: seq<string>)

  /** `scheduleIfHasVariants`, given each listed product's variant IDs and whether the scheduler
      accepts the job (an InvalidScheduleException is reported). */
  function ScheduleIfHasVariants(variantsPerProduct: seq<seq<string>>, scheduleSucceeds: bool): ScheduleOutcome {
    var variantProductIds := Flatten(variantsPerProduct);
    if variantProductIds == [] then NothingToSchedule
    else if scheduleSucceeds then Scheduled(variantProductIds)
    else ScheduleFailed(variantProductIds)
  }

  lemma {:induction false} FlattenEmptyOnlyOfEmpties(ss: seq<seq<string>>)
    requires Flatten(ss) == []
    ensures forall i :: 0 <= i < |ss| ==> ss[i] == []
    decreases |ss|
  {
    if ss != [] {
      FlattenEmptyOnlyOfEmpties(ss[..|ss| - 1]);
      assert forall i :: 0 <= i < |ss| - 1 ==> ss[i] == ss[..|ss| - 1][i];
    }
  }

  /** No job is scheduled exactly when no listed product has a variant; otherwise the job's
      arguments are all variant IDs, product by product. */
  lemma ScheduleOnlyWithVariants(variantsPerProduct: seq<seq<string>>, scheduleSucceeds: bool)
    ensures ScheduleIfHasVariants(variantsPerProduct, scheduleSucceeds).NothingToSchedule? <==>
      forall i :: 0 <= i < |variantsPerProduct| ==> variantsPerProduct[i] == []
    ensures var o := ScheduleIfHasVariants(variantsPerProduct, scheduleSucceeds);
      !o.NothingToSchedule? ==> o.args == Flatten(variantsPerProduct) && o.args != []
  {
    if Flatten(variantsPerProduct) == [] {
      FlattenEmptyOnlyOfEmpties(variantsPerProduct);
    } else if forall i :: 0 <= i < |variantsPerProduct| ==> variantsPerProduct[i] == [] {
      FlattenEmpty(variantsPerProduct);
    }
  }

  /** The job handler, with the events it has produced. */
  class ListRemoteVariantsJobHandler {
    var log: seq<JobEvent>

    constructor ()
      ensures log == []
    {
      log := [];
    }

    /** `processVariants`. */
    method ProcessVariants(variantProductIds: seq<string>, maxPerRequest: int, fails: seq<string> -> bool)
      requires maxPerRequest > 0
      modifies this
      ensures log == old(log) + ProcessEvents(GetChunkedIds(variantProductIds, maxPerRequest), fails)
    {
      var chunkedIds := GetChunkedIds(variantProductIds, maxPerRequest);
      var operationIds: seq<string> := [];
      var i := 0;
      while i < |chunkedIds|
        invariant 0 <= i <= |chunkedIds|
        invariant log == old(log) + ProcessEvents(chunkedIds[..i], fails)
      {
        operationIds := chunkedIds[i];
        log := log + [ListCall(operationIds)];
        if fails(operationIds) {
          log := log + [ListFailed(operationIds)];
        }
        assert log == old(log) + ProcessEvents(chunkedIds[..i], fails) + ChunkEvents(chunkedIds[i], fails);
        assert chunkedIds[..i + 1][..i] == chunkedIds[..i];
        i := i + 1;
      }
      assert chunkedIds[..i] == chunkedIds;
    }

    /** `run`: the first argument is the ID list and the second the maximum, each padded with
        null when missing; further arguments are ignored. */
    method Run(args: seq<JobArg>, fails: seq<string> -> bool)
      modifies this
      ensures var padded := Pad(args, 2);
        log == old(log) + ProcessEvents(GetChunkedIds(ArgIds(padded[0]), MaxPerRequestOrDefault(padded[1])), fails)
    {
      var padded := Pad(args, 2);
      ProcessVariants(ArgIds(padded[0]), MaxPerRequestOrDefault(padded[1]), fails);
    }
  }

  /** A job run with only the ID list, or with a maximum that is not a positive integer, lists
      the IDs in chunks of the default size. */
  lemma RunFallsBackToDefault(args: seq<JobArg>)
    requires |args| < 2 || ArgInt(args[1]) <= 0
    ensures MaxPerRequestOrDefault(Pad(args, 2)[1]) == DefaultMaxPerRequest
  {
  }
}
