/** What the files hold: every accepted record's own values, column by column,
    whatever shapes it was accepted, sealed and written under.

    One invariant, kept by every event: staged rows and sealed batches read as what
    was accepted, a sealed batch hashes to its key, and a file holds what its key
    names. A file under a batch's key therefore delivers that batch's records. */
module Contents {
  import opened Bytes
  import opened Record
  import opened BatchKey
  import opened Remap
  import opened Protocol
  import opened Structure

  ghost predicate Carries(a: Accepted, d: Declared, row: seq<Value>) {
    var decoded := Record.DecodeSpec(a.shape.fields, a.payload);
    decoded.Ok? && Remapped(a.shape.fields, d.fields, decoded.value, row)
  }

  // A payload holding an accepted record's values under another shape.
  ghost predicate Reads(a: Accepted, d: Declared, payload: seq<byte>) {
    var decoded := Record.DecodeSpec(d.fields, payload);
    decoded.Ok? && Carries(a, d, decoded.value)
  }

  // A file holding the records a batch key names.
  ghost predicate Image(name: TableId, key: Digest, d: Declared, ps: seq<seq<byte>>, f: File) {
    && KeyFor(name, d, ps) == Ok(key) && |ps| == |f.rows|
    && forall k | 0 <= k < |ps| :: Carries(Accepted(d, ps[k]), f.shape, f.rows[k])
  }

  ghost predicate Renders(name: TableId, key: Digest, f: File) {
    exists d: Declared, ps: seq<seq<byte>> :: Image(name, key, d, ps, f)
  }

  lemma SameShape(d: Declared, payload: seq<byte>)
    requires Record.DecodeSpec(d.fields, payload).Ok?
    ensures Reads(Accepted(d, payload), d, payload)
  {
    hide Record.DecodeSpec;
    var row := Record.DecodeSpec(d.fields, payload).value;
    EncodeUndoesDecode(d.fields, payload);
    EncodableColumns(d.fields, row, 0);
    forall k | 0 <= k < |d.fields|
      ensures Holds(d.fields, d.fields[k].id) && ServesColumn(d.fields, row, d.fields[k], row[k])
    {
      assert EncodeColumn(d.fields[k], row[k]).Ok?;
    }
  }

  lemma CarriesOn(a: Accepted, b: Declared, payload: seq<byte>, c: Declared, row: seq<Value>)
    requires Reads(a, b, payload) && Carries(Accepted(b, payload), c, row)
    ensures Carries(a, c, row)
  {
    hide Remapped, Record.DecodeSpec;
    RemappedTwice(a.shape.fields, b.fields, c.fields, Record.DecodeSpec(a.shape.fields, a.payload).value,
                  Record.DecodeSpec(b.fields, payload).value, row);
  }

  lemma RenderCarries(r: Row, to: Declared)
    requires Render(r, to).Ok?
    ensures Carries(Accepted(r.shape, r.payload), to, Render(r, to).value)
  {
    hide Remapped, Record.DecodeSpec, RemapSpec;
    if r.shape == to {
      SameShape(to, r.payload);
    } else {
      var row := Record.DecodeSpec(r.shape.fields, r.payload).value;
      RemapIsRemapping(r.shape.fields, to.fields, row, Render(r, to).value);
    }
  }

  lemma RecodeReads(r: Row, to: Declared)
    requires Record.DecodeSpec(r.shape.fields, r.payload).Ok? && Recode(r, to).Ok?
    ensures Reads(Accepted(r.shape, r.payload), to, Recode(r, to).value)
  {
    hide Remapped, Record.DecodeSpec, RemapSpec, EncodeSpec;
    if r.shape == to {
      SameShape(to, r.payload);
    } else {
      var row := Record.DecodeSpec(r.shape.fields, r.payload).value;
      var moved := RemapSpec(r.shape.fields, to.fields, row).value;
      DecodeUndoesEncode(to.fields, moved);
      RemapIsRemapping(r.shape.fields, to.fields, row, moved);
    }
  }

  ghost predicate BatchReads(s: State, b: Batch) {
    && KeyFor(s.name, b.shape, b.payloads) == Ok(b.key) && |b.ids| == |b.payloads|
    && forall k | 0 <= k < |b.ids| :: b.ids[k] in s.accepted && Reads(s.accepted[b.ids[k]], b.shape, b.payloads[k])
  }

  predicate SealedRow(s: State, b: Batch, k: int) {
    0 <= k < |b.ids| && |b.ids| == |b.payloads| && SealedAs(s, b.ids[k], b.key)
  }

  // Staged rows and sealed batches read as what was accepted, and files as what
  // their key names.
  ghost predicate Durable(s: State) {
    && (forall i | i in s.staged :: i in s.accepted && Reads(s.accepted[i], s.staged[i].shape, s.staged[i].payload))
    && (forall q | 0 <= q < |s.seals| :: BatchReads(s, s.seals[q]))
    && (forall k | s.seals != [] && SealedRow(s, Last(s), k) ::
          s.staged[Last(s).ids[k]].shape == Last(s).shape && s.staged[Last(s).ids[k]].payload == Last(s).payloads[k])
    && (forall key | key in s.bucket :: Renders(s.name, key, s.bucket[key]))
    && (forall key | key in s.files :: Renders(s.name, key, s.files[key]))
  }

  ghost predicate Faithful(s: State) {
    Durable(s) && (Keyed(s) && (Stage(s).Ready? || Stage(s).Written?) ==> Renders(s.name, Key(s), Stage(s).file))
  }

  ghost predicate SameContents(s: State, t: State) {
    && t.name == s.name && t.accepted == s.accepted && t.staged == s.staged && t.seals == s.seals
    && t.bucket == s.bucket && t.files == s.files
  }

  lemma DurableSame(s: State, t: State)
    requires Durable(s) && SameContents(s, t)
    ensures Durable(t)
  {
    hide Reads, Renders, KeyFor, BatchReads, SealedRow;
    DurableFiles(s, t);
  }

  lemma {:induction false} AcceptFaithful(s: State, payloads: seq<seq<byte>>)
    requires Structured(s) && Faithful(s) && s.owner.Writer?
    requires forall p | p in payloads :: Record.DecodeSpec(s.owner.w.shape.fields, p).Ok?
    ensures Faithful(AfterAccept(s, payloads))
    decreases |payloads|
  {
    hide Structured, Faithful, Record.DecodeSpec;
    if payloads != [] {
      AddKeeps(s, payloads[0]);
      AddFaithful(s, payloads[0]);
      AcceptFaithful(Added(s, payloads[0]), payloads[1..]);
    }
  }

  lemma AddFaithful(s: State, payload: seq<byte>)
    requires Structured(s) && Faithful(s) && s.owner.Writer?
    requires Record.DecodeSpec(s.owner.w.shape.fields, payload).Ok?
    ensures Faithful(Added(s, payload))
  {
    hide Seals, Queue, Reads, Renders, KeyFor, Record.DecodeSpec;
    var t := Added(s, payload);
    SameShape(s.owner.w.shape, payload);
    AddedRow(s, payload);
    assert forall q | 0 <= q < |s.seals| :: BatchReads(s, s.seals[q]) ==> BatchReads(t, t.seals[q]);
  }

  // The head's rows, read back, are the last sealed batch's.
  lemma HeadRows(s: State, k: nat)
    requires Structured(s) && Durable(s) && Keyed(s) && HeadHere(s) && k < |Head(s).ids|
    ensures |Head(s).ids| == |Last(s).payloads| && Head(s).ids[k] in s.staged
    ensures s.staged[Head(s).ids[k]].shape == Last(s).shape && s.staged[Head(s).ids[k]].payload == Last(s).payloads[k]
  {
    hide Ids, Seals, Reads, Renders, KeyFor, Flat, Ascends;
    assert BatchReads(s, Last(s));
    assert Head(s).ids[k] in Head(s).ids;
    assert SealedRow(s, Last(s), k);
  }

  lemma HeadRenders(s: State)
    requires Structured(s) && Durable(s) && Keyed(s) && HeadHere(s)
    requires forall i | i in Head(s).ids :: i in s.staged && Render(s.staged[i], s.owner.w.shape).Ok?
    ensures Renders(s.name, Key(s), FileOf(s.staged, Head(s).ids, s.owner.w.shape))
  {
    hide Structured, HeadHere, Durable, Render, Carries, KeyFor;
    var f := FileOf(s.staged, Head(s).ids, s.owner.w.shape);
    LastIsHead(s);
    forall k | 0 <= k < |Last(s).payloads|
      ensures Carries(Accepted(Last(s).shape, Last(s).payloads[k]), f.shape, f.rows[k])
    {
      HeadRows(s, k);
      assert Head(s).ids[k] in Head(s).ids;
      RenderCarries(s.staged[Head(s).ids[k]], s.owner.w.shape);
    }
    assert Image(s.name, Key(s), Last(s).shape, Last(s).payloads, f);
  }

  lemma LastIsHead(s: State)
    requires Structured(s) && Durable(s) && Keyed(s)
    ensures s.seals != [] && Last(s).key == Key(s) && Last(s).ids == Head(s).ids && |Last(s).payloads| == |Head(s).ids|
    ensures KeyFor(s.name, Last(s).shape, Last(s).payloads) == Ok(Key(s))
  {
    hide Ids, Seals, Reads, Renders, KeyFor, Flat, Ascends;
    assert BatchReads(s, Last(s));
  }

  lemma PreparedFaithful(s: State)
    requires Structured(s) && Durable(s) && Keyed(s) && HeadHere(s)
    requires forall i | i in Head(s).ids :: i in s.staged && Render(s.staged[i], s.owner.w.shape).Ok?
    ensures Faithful(Prepared(s))
  {
    hide Structured, HeadHere, Durable, Render, Renders, FileOf;
    HeadRenders(s);
    DurableSame(s, Prepared(s));
  }

  // What the seal leaves of a row it stamps.
  lemma StampedReads(s: State, i: nat, key: Digest, to: Declared)
    requires Durable(s) && i in s.staged && Recode(s.staged[i], to).Ok?
    ensures Reads(s.accepted[i], to, Recoded(s.staged, i, to))
    ensures Render(Row(to, Recoded(s.staged, i, to), Some(key), false), to).Ok?
  {
    hide Remapped, Record.DecodeSpec, Renders, BatchReads, Recode;
    var r := s.staged[i];
    RecodeReads(r, to);
    CarriesOn(s.accepted[i], r.shape, r.payload, to, Record.DecodeSpec(to.fields, Recode(r, to).value).value);
  }

  lemma SealedDurable(s: State, key: Digest)
    requires Structured(s) && Durable(s) && Working(s) && CanStep(s, Seal(key))
    ensures Durable(Sealed(s, key))
    ensures var t := Sealed(s, key);
            forall i | i in Head(t).ids :: i in t.staged && Render(t.staged[i], t.owner.w.shape).Ok?
  {
    hide Structured, Reads, Renders, KeyFor, Recode, Recoded, Render, Record.DecodeSpec;
    var t := Sealed(s, key);
    var ids, shape := Head(s).ids, s.owner.w.shape;
    forall i | i in ids
      ensures Reads(s.accepted[i], shape, Recoded(s.staged, i, shape))
      ensures Render(Row(shape, Recoded(s.staged, i, shape), Some(key), false), shape).Ok?
    {
      assert Unsealed(s, i);
      StampedReads(s, i, key, shape);
    }
    assert BatchReads(t, t.seals[|s.seals|]) by { SealedReads(s, key); }
    assert forall q | 0 <= q < |s.seals| :: BatchReads(s, s.seals[q]) ==> BatchReads(t, t.seals[q]);
  }

  lemma SealedReads(s: State, key: Digest)
    requires Durable(s) && Working(s) && CanStep(s, Seal(key))
    requires forall i | i in Head(s).ids :: Reads(s.accepted[i], s.owner.w.shape, Recoded(s.staged, i, s.owner.w.shape))
    ensures BatchReads(Sealed(s, key), Sealed(s, key).seals[|s.seals|])
  {
    hide Reads, Renders, Recode, Recoded, Record.DecodeSpec, Stamped, BatchHashSpec;
    var ids := Head(s).ids;
    forall k | 0 <= k < |ids|
      ensures Unsealed(s, ids[k]) && ids[k] in s.accepted
    {
      assert ids[k] in ids;
    }
  }

  lemma FaithfulTo(s: State, phase: Phase)
    requires Durable(s) && s.owner.Writer?
    requires phase.Ready? || phase.Written? ==> Keyed(s) && Renders(s.name, Key(s), phase.file)
    ensures Faithful(To(s, phase))
  {
    hide Durable, Renders;
    DurableSame(s, To(s, phase));
  }

  lemma FaithfulFail(s: State)
    requires Durable(s) && Working(s)
    ensures Faithful(Failed(s))
  {
    hide Durable, Renders;
    DurableSame(s, Failed(s));
  }

  lemma FaithfulPop(s: State)
    requires Durable(s) && Working(s)
    ensures Faithful(Popped(s))
  {
    hide Durable, Renders;
    DurableSame(s, Popped(s));
  }

  // New files that render their key, over the same rows.
  lemma DurableFiles(s: State, t: State)
    requires Durable(s) && t.name == s.name && t.accepted == s.accepted && t.staged == s.staged && t.seals == s.seals
    requires forall key | key in t.bucket :: Renders(t.name, key, t.bucket[key])
    requires forall key | key in t.files :: Renders(t.name, key, t.files[key])
    ensures Durable(t)
  {
    hide Reads, Renders, BatchReads;
    forall q | 0 <= q < |t.seals|
      ensures BatchReads(t, t.seals[q])
    {
      assert BatchReads(s, s.seals[q]);
      SameReads(s, t, s.seals[q]);
    }
    forall k | t.seals != [] && SealedRow(t, Last(t), k)
      ensures t.staged[Last(t).ids[k]].shape == Last(t).shape
      ensures t.staged[Last(t).ids[k]].payload == Last(t).payloads[k]
    {
      assert SealedRow(s, Last(s), k);
    }
  }

  lemma SameReads(s: State, t: State, b: Batch)
    requires t.name == s.name && t.accepted == s.accepted && t.staged == s.staged
    ensures BatchReads(t, b) == BatchReads(s, b) && forall k :: SealedRow(t, b, k) == SealedRow(s, b, k)
  {
    hide Reads, KeyFor;
  }

  // Rows that leave, or are only marked.
  lemma DurableRows(s: State, t: State)
    requires Durable(s) && t.name == s.name && t.accepted == s.accepted && t.seals == s.seals
    requires t.bucket == s.bucket && t.files == s.files
    requires forall i | i in t.staged :: i in s.staged && t.staged[i].shape == s.staged[i].shape &&
                                         t.staged[i].payload == s.staged[i].payload
    requires forall i, key | SealedAs(t, i, key) :: SealedAs(s, i, key)
    ensures Durable(t)
  {
    hide Reads, Renders, KeyFor, SealedAs;
    assert forall q | 0 <= q < |s.seals| :: BatchReads(s, s.seals[q]) ==> BatchReads(t, t.seals[q]);
    assert forall b, k | SealedRow(t, b, k) :: SealedRow(s, b, k);
    forall k | s.seals != [] && SealedRow(t, Last(s), k)
      ensures Last(s).ids[k] in t.staged
    {
      assert SealedAs(t, Last(s).ids[k], Last(s).key) ==> Last(s).ids[k] in t.staged
             by { SealedIsStaged(t, Last(s).ids[k], Last(s).key); }
    }
  }

  lemma SealedIsStaged(s: State, i: nat, key: Digest)
    ensures SealedAs(s, i, key) ==> i in s.staged
  {
  }

  lemma FaithfulPublish(s: State, step: Step)
    requires Faithful(s) && Working(s) && CanStep(s, step)
    requires step.WriteSpool? || step.Upload? || step.Commit? || step.Conflict?
    ensures Faithful(NextStep(s, step))
  {
    hide Durable, Renders, To, Failed;
    match step
    case WriteSpool(stamp, recorded) =>
      var t := s.(files := s.files[Key(s) := Stage(s).file]);
      assert Durable(t) by { FilesRender(s); DurableFiles(s, t); }
      if recorded {
        var u := t.(records := Recorded(s, Key(s), stamp));
        DurableSame(t, u);
        FaithfulTo(u, Written(Stage(s).file));
      } else {
        FaithfulFail(t);
      }
    case Upload(reported) =>
      var t := s.(bucket := s.bucket[Key(s) := Stage(s).file]);
      assert Durable(t) by { FilesRender(s); DurableFiles(s, t); }
      FaithfulTo(t, Uploaded);
      FaithfulFail(t);
    case Commit(_, refreshed) =>
      var t := s.(table := s.table + [Key(s)]);
      DurableSame(s, Refreshed(t, true));
      DurableSame(s, Refreshed(t, refreshed));
      FaithfulTo(Refreshed(t, true), Confirmed);
      FaithfulFail(Refreshed(t, refreshed));
    case Conflict(refreshed) =>
      DurableSame(s, Refreshed(s, refreshed));
      FaithfulFail(Refreshed(s, refreshed));
  }

  lemma FilesRender(s: State)
    requires Durable(s)
    ensures forall key | key in s.bucket :: Renders(s.name, key, s.bucket[key])
    ensures forall key | key in s.files :: Renders(s.name, key, s.files[key])
  {
    hide Reads, Renders, BatchReads;
  }

  lemma FaithfulStep(s: State, step: Step)
    requires Structured(s) && Faithful(s) && Working(s) && CanStep(s, step)
    ensures Faithful(NextStep(s, step))
  {
    hide Ids, Seals, Queue, Durable, Renders, FileOf, Recode, KeyFor, Pruned, Quarantined, Sealed, Failed, Popped,
      Prepared, To;
    match step
    case Seal(key) => FaithfulSeal(s, key);
    case WriteSpool(_, _) => FaithfulPublish(s, step);
    case Upload(_) => FaithfulPublish(s, step);
    case Commit(_, _) => FaithfulPublish(s, step);
    case Conflict(_) => FaithfulPublish(s, step);
    case Reread =>
      StepHasHead(s, step);
      PreparedFaithful(s);
    case SkipSpool => FaithfulTo(s, Written(Stage(s).file));
    case Mark =>
      var t := if s.owner.w.spooling then Marked(s, Key(s)) else s;
      DurableSame(s, t);
      FaithfulTo(t, Settled);
    case KeepLocal => FaithfulTo(s, Settled);
    case Delete =>
      var t := s.(staged := Pruned(s.staged, Head(s).ids));
      PrunedDurable(s, Head(s).ids);
      FaithfulTo(t, Deleted);
    case Leave => FaithfulPop(s);
    case Quarantine =>
      QuarantinedDurable(s, Head(s).ids);
      FaithfulPop(s.(staged := Quarantined(s.staged, Head(s).ids)));
    case Fail => FaithfulFail(s);
  }

  lemma PrunedDurable(s: State, ids: seq<nat>)
    requires Durable(s)
    ensures Durable(s.(staged := Pruned(s.staged, ids)))
  {
    hide Durable;
    DurableRows(s, s.(staged := Pruned(s.staged, ids)));
  }

  lemma QuarantinedDurable(s: State, ids: seq<nat>)
    requires Durable(s)
    ensures Durable(s.(staged := Quarantined(s.staged, ids)))
  {
    hide Durable;
    DurableRows(s, s.(staged := Quarantined(s.staged, ids)));
  }

  lemma FaithfulSeal(s: State, key: Digest)
    requires Structured(s) && Faithful(s) && Working(s) && CanStep(s, Seal(key))
    ensures Faithful(Prepared(Sealed(s, key)))
  {
    hide Structured, Durable, Renders, Sealed, Prepared, Render, Recode, KeyFor;
    SealedDurable(s, key);
    SealKeepsSealed(s, key);
    PreparedFaithful(Sealed(s, key));
  }

  lemma FaithfulWalk(s: State, step: DrainStep)
    requires Faithful(s) && s.owner.Drain? && CanWalk(s, step)
    ensures Faithful(NextWalk(s, step))
  {
    hide Durable, Renders;
    var t := NextWalk(s, step);
    if step.Send? {
      FilesRender(s);
      DurableFiles(s, t);
    } else {
      DurableSame(s, t);
    }
  }

  /** Every step keeps the contents faithful. */
  lemma FaithfulKept(s: State, e: Event)
    requires Structured(s) && Faithful(s) && Can(s, e)
    ensures Faithful(Next(s, e))
  {
    hide Structured, Durable, Renders, CanStep, NextStep, CanWalk, NextWalk, AfterAccept, Scan;
    match e
    case Accept(payloads) => AcceptFaithful(s, payloads);
    case Attempt(step) => FaithfulStep(s, step);
    case Walk(step) => FaithfulWalk(s, step);
    case EvictFile(key) => FilesRender(s); DurableFiles(s, Next(s, e));
    case Enqueue => DurableSame(s, Next(s, e)); EnqueueKeepsHead(s);
    case _ => DurableSame(s, Next(s, e));
  }

  lemma EnqueueKeepsHead(s: State)
    requires s.owner.Writer?
    ensures Keyed(AfterEnqueue(s)) ==> Keyed(s) && Key(AfterEnqueue(s)) == Key(s)
  {
  }

  // ------------------------------------------------------- what a file delivers

  predicate Place(s: State, q: int, k: int) { 0 <= q < |s.seals| && 0 <= k < |s.seals[q].ids| }

  ghost predicate Delivers(s: State, f: File, q: int, k: int) {
    && Place(s, q, k) && |f.rows| == |s.seals[q].ids| && s.seals[q].ids[k] in s.accepted
    && Carries(s.accepted[s.seals[q].ids[k]], f.shape, f.rows[k])
  }

  /** A file under a batch's key holds that batch's own records in their order,
      whichever seal, replay or drain wrote it and under whichever shape. */
  lemma FileDelivers(s: State, f: File, q: int, k: int)
    requires Durable(s) && Place(s, q, k) && Renders(s.name, s.seals[q].key, f)
    ensures Delivers(s, f, q, k)
  {
    hide Reads, Carries, BatchHashSpec, Hashable;
    var b := s.seals[q];
    assert BatchReads(s, b);
    var d: Declared, ps: seq<seq<byte>> :| Image(s.name, b.key, d, ps, f);
    KeyDeterminesBatch(s.name.namespace, s.name.name, d, ps, s.name.namespace, s.name.name, b.shape, b.payloads);
    CarriesOn(s.accepted[b.ids[k]], b.shape, b.payloads[k], f.shape, f.rows[k]);
  }
}
