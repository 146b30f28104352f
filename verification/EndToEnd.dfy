/** What a SUCCESS row promises: its columns are those of one upload in every
    interleaving, and when runs do not overlap a download returns the uploaded bytes. */
module EndToEnd {
  import opened Common
  import opened Transfers
  import opened Protocol
  import Routing
  import Once = ExactlyOnce

  // ---------------------------------------------------------------- SUCCESS rows

  /** The columns agree with the attempt that wrote them, whose checksum pass read
      `s.log.sources[id]`. */
  ghost predicate Coherent(cfg: Config, s: State, id: Id)
  {
    id in s.rows && s.rows[id].status == Success ==>
      var row := s.rows[id];
      && id in s.log.sources
      && row.objectKey.Some?
      && row.encrypted == row.wrappedDek.Some? && row.encrypted == cfg.encrypt
      && row.sha256 == Some(cfg.sha256(s.log.sources[id]))
      && (!row.encrypted && row.etag.Some? && |row.etag.value| == 32
          && (forall i :: 0 <= i < 32 ==> row.etag.value[i] in HEX) ==>
            SameButCase(row.etag.value, cfg.md5(s.log.sources[id])))
  }

  const HEX: string := "0123456789abcdefABCDEF"

  /** Equal up to the case of letters. */
  predicate SameButCase(a: string, b: string)
  {
    && |a| == |b|
    && forall i :: 0 <= i < |a| ==>
         || a[i] == b[i]
         || ('a' <= a[i] <= 'z' && 'A' <= b[i] <= 'Z' && a[i] as int - 'a' as int == b[i] as int - 'A' as int)
         || ('A' <= a[i] <= 'Z' && 'a' <= b[i] <= 'z' && a[i] as int - 'A' as int == b[i] as int - 'a' as int)
  }

  /** What an ETag that passed the check says. */
  lemma CheckedEtag(cfg: Config, up: Upload)
    requires IntegrityOk(cfg, up) && up.wrappedDek == None && up.etag.Some?
    requires |up.etag.value| == 32 && forall i :: 0 <= i < 32 ==> up.etag.value[i] in HEX
    ensures SameButCase(up.etag.value, cfg.md5(up.read))
  {
    HexExactly(up.etag.value);
    Routing.LowerIgnoresCase(up.etag.value, cfg.md5(up.read));
  }

  ghost predicate RowInv(cfg: Config, s: State)
  {
    && (forall id :: Coherent(cfg, s, id))
    && (forall p :: 0 <= p < |s.procs| && s.procs[p].Worker? && s.procs[p].phase.Uploaded? ==>
          && s.procs[p].phase.up.sha256 == cfg.sha256(s.procs[p].phase.up.read)
          && s.procs[p].phase.up.wrappedDek.Some? == cfg.encrypt)
  }

  /** Only `markSuccess` writes SUCCESS, with the upload of its own attempt. */
  ghost predicate MarksOwnUpload(cfg: Config, s: State, c: Change)
  {
    && (c.rows.ToSuccess? || c.note.Marked? ==>
          && c.rows.ToSuccess? && c.note == Marked(c.rows.id, c.rows.up.read)
          && IntegrityOk(cfg, c.rows.up)
          && var q := Old(s, c);
             q.Worker? && q.phase.Uploaded? && q.phase.up == c.rows.up && q.job.id == c.rows.id)
    && (c.slot.Some? && c.proc.Worker? && c.proc.phase.Uploaded? ==>
          && c.proc.phase.up.sha256 == cfg.sha256(c.proc.phase.up.read)
          && c.proc.phase.up.wrappedDek.Some? == cfg.encrypt)
  }

  lemma WorkMarksOwn(cfg: Config, s: State, p: nat, act: Act)
    requires p < |s.procs| && s.procs[p].Worker?
    ensures var c := PlanWork(cfg, s, p, s.procs[p].job, s.procs[p].phase, act);
            c.Some? ==> MarksOwnUpload(cfg, s, c.value)
  {
  }

  lemma PlansMarkOwn(cfg: Config, s: State, step: Step)
    ensures var c := Plan(cfg, s, step); c.Some? ==> MarksOwnUpload(cfg, s, c.value)
  {
    if !step.Work? { OtherPlans(cfg, s, step); }
    else if step.p < |s.procs| && s.procs[step.p].Worker? { WorkMarksOwn(cfg, s, step.p, step.act); }
  }

  lemma CoherentStays(cfg: Config, s: State, c: Change, id: Id)
    requires RowInv(cfg, s) && MarksOwnUpload(cfg, s, c)
    ensures Coherent(cfg, Commit(s, c), id)
  {
    var s' := Commit(s, c);
    assert Coherent(cfg, s, id);
    if c.rows.ToSuccess? && c.rows.id == id && id in s.rows {
      assert s'.rows[id] == AsSuccess(s.rows[id], c.rows.up, s.clock);
      assert s'.log.sources[id] == c.rows.up.read;
      var up := c.rows.up;
      if up.wrappedDek == None && up.etag.Some? && |up.etag.value| == 32
         && forall i :: 0 <= i < 32 ==> up.etag.value[i] in HEX { CheckedEtag(cfg, up); }
    } else if id in s'.rows && s'.rows[id].status == Success {
      assert s'.rows[id] == s.rows[id];
      assert id in s'.log.sources && s'.log.sources[id] == s.log.sources[id];
    }
  }

  lemma StepKeepsRows(cfg: Config, s: State, step: Step)
    requires RowInv(cfg, s)
    ensures RowInv(cfg, Apply(cfg, s, step))
  {
    var c := Plan(cfg, s, step);
    if c.Some? {
      PlansMarkOwn(cfg, s, step);
      CommitKeepsRows(cfg, s, c.value);
    }
  }

  lemma CommitKeepsRows(cfg: Config, s: State, c: Change)
    requires RowInv(cfg, s) && MarksOwnUpload(cfg, s, c)
    ensures RowInv(cfg, Commit(s, c))
  {
    var s' := Commit(s, c);
    forall id ensures Coherent(cfg, s', id) { CoherentStays(cfg, s, c, id); }
    forall p | 0 <= p < |s'.procs| && s'.procs[p].Worker? && s'.procs[p].phase.Uploaded?
      ensures s'.procs[p].phase.up.sha256 == cfg.sha256(s'.procs[p].phase.up.read)
      ensures s'.procs[p].phase.up.wrappedDek.Some? == cfg.encrypt
    {
      if p < |s.procs| && c.slot != Some(p) { assert s'.procs[p] == s.procs[p]; }
    }
  }

  lemma {:induction false} RunKeepsRows(cfg: Config, s: State, steps: seq<Step>)
    requires RowInv(cfg, s)
    ensures RowInv(cfg, Run(cfg, s, steps))
  {
    if steps != [] {
      RunKeepsRows(cfg, s, steps[..|steps| - 1]);
      StepKeepsRows(cfg, Run(cfg, s, steps[..|steps| - 1]), steps[|steps| - 1]);
    }
  }

  /** In every interleaving, crashes and overlapping runs included: a SUCCESS row has its
      object key, is encrypted exactly when it carries a wrapped key, and an unencrypted
      single-part ETag equals the MD5 of the source that its attempt read. */
  lemma {:induction false} SuccessRowsAreCoherent(cfg: Config, steps: seq<Step>, id: Id)
    ensures var s := Run(cfg, Init(), steps);
            id in s.rows && s.rows[id].status == Success ==>
              var row := s.rows[id];
              && id in s.log.sources && row.objectKey.Some?
              && row.encrypted == row.wrappedDek.Some? && row.encrypted == cfg.encrypt
              && row.sha256 == Some(cfg.sha256(s.log.sources[id]))
              && (!row.encrypted && row.etag.Some? && |row.etag.value| == 32
                  && (forall i :: 0 <= i < 32 ==> row.etag.value[i] in "0123456789abcdefABCDEF") ==>
                    var etag, md5 := row.etag.value, cfg.md5(s.log.sources[id]);
                    && |etag| == |md5|
                    && forall i :: 0 <= i < |etag| ==>
                         || etag[i] == md5[i]
                         || ('a' <= etag[i] <= 'z' && 'A' <= md5[i] <= 'Z' && etag[i] as int == md5[i] as int + 32)
                         || ('A' <= etag[i] <= 'Z' && 'a' <= md5[i] <= 'z' && etag[i] as int + 32 == md5[i] as int))
  {
    RunKeepsRows(cfg, Init(), steps);
    assert Coherent(cfg, Run(cfg, Init(), steps), id);
  }

  /** And `verifyIntegrity` stops nothing else: an attempt goes on unless its object is not
      encrypted and its ETag is 32 hex digits that differ from the MD5 in more than case. */
  lemma IntegrityExactly(cfg: Config, up: Upload)
    ensures IntegrityOk(cfg, up) <==>
            !(&& up.wrappedDek == None && up.etag.Some? && |up.etag.value| == 32
              && (forall i :: 0 <= i < 32 ==> up.etag.value[i] in HEX)
              && !SameButCase(up.etag.value, cfg.md5(up.read)))
  {
    if up.etag.Some? {
      var etag, md5 := up.etag.value, cfg.md5(up.read);
      HexExactly(etag);
      if SameButCase(etag, md5) { Routing.CaseIsIgnored(etag, md5); }
      if Routing.Lower(etag) == Routing.Lower(md5) { Routing.LowerIgnoresCase(etag, md5); }
    }
  }

  lemma HexExactly(s: string)
    ensures (forall i :: 0 <= i < |s| ==> s[i] in HEX) <==> forall i :: 0 <= i < |s| ==> IsHex(s[i])
  {
    forall c: char ensures c in HEX <==> IsHex(c) { HexDigit(c); }
  }

  lemma HexDigit(c: char)
    ensures c in HEX <==> IsHex(c)
  {
    if '0' <= c <= '9' { assert HEX[c as int - '0' as int] == c; }
    if 'a' <= c <= 'f' { assert HEX[10 + (c as int - 'a' as int)] == c; }
    if 'A' <= c <= 'F' { assert HEX[16 + (c as int - 'A' as int)] == c; }
  }

  // ---------------------------------------------------------------- download

  /** The bytes `download` delivers for a stored object: decrypted by the stream when the
      row says so; None when the key cannot be unwrapped or the tag does not verify. */
  function Fetch(cfg: Config, encrypted: bool, wrappedDek: Option<Bytes>, obj: Bytes): Option<Bytes>
  {
    if encrypted && wrappedDek.Some? then
      match cfg.gcm.Decrypt(cfg.kek, wrappedDek.value)
      case Some(dek) => cfg.gcm.OpenStream(dek, obj)
      case None => None
    else Some(obj)
  }

  /** If `id` was the last to write the location, fetching it gives the bytes its last
      upload read. */
  ghost predicate ReadsBack(cfg: Config, s: State, id: Id, at: Location, wrappedDek: Option<Bytes>)
  {
    at in s.log.uploader && s.log.uploader[at] == id ==>
      && at in s.objects && id in s.log.bodies
      && Fetch(cfg, wrappedDek.Some?, wrappedDek, s.objects[at]) == Some(s.log.bodies[id])
      && |s.objects[at]| == |s.log.bodies[id]| + if wrappedDek.Some? then 28 else 0
  }

  ghost predicate RowReadsBack(cfg: Config, s: State, id: Id)
  {
    id in s.rows && s.rows[id].status == Success && s.rows[id].objectKey.Some? ==>
      ReadsBack(cfg, s, id, (s.rows[id].bucket, s.rows[id].objectKey.value), s.rows[id].wrappedDek)
  }

  ghost predicate UploadReadsBack(cfg: Config, s: State, q: Proc)
  {
    q.Worker? && q.phase.Uploaded? ==>
      ReadsBack(cfg, s, q.job.id, (q.phase.up.bucket, q.phase.up.key), q.phase.up.wrappedDek)
  }

  ghost predicate Inv(cfg: Config, s: State)
  {
    && (forall id :: RowReadsBack(cfg, s, id))
    && (forall p :: 0 <= p < |s.procs| ==> UploadReadsBack(cfg, s, s.procs[p]))
  }

  /** A stored object comes from a worker in the middle of its run, and is readable with
      the key that worker goes on to persist. */
  ghost predicate StoresReadably(cfg: Config, s: State, c: Change)
  {
    && (c.note.Stored? ==>
          && Once.PreMark(Old(s, c), c.note.id)
          && c.proc.Worker? && c.proc.phase.Uploaded? && c.proc.job.id == c.note.id
          && c.note.at == (c.proc.phase.up.bucket, c.proc.phase.up.key)
          && c.rows.KeepRows?
          && Fetch(cfg, c.proc.phase.up.wrappedDek.Some?, c.proc.phase.up.wrappedDek, c.note.bytes)
             == Some(c.note.body)
          && |c.note.bytes| == |c.note.body| + if c.proc.phase.up.wrappedDek.Some? then 28 else 0)
    && (c.slot.Some? && c.proc.Worker? && c.proc.phase.Uploaded? ==> c.note.Stored?)
  }

  lemma SealedReadsBack(cfg: Config, body: Bytes, keys: Option<KeyMaterial>)
    requires cfg.gcm.Valid() && KeysFit(cfg, keys)
    ensures var (bytes, wrapped) := Sealed(cfg, body, keys);
            && Fetch(cfg, wrapped.Some?, wrapped, bytes) == Some(body)
            && |bytes| == |body| + if cfg.encrypt then 28 else 0
  {
    if keys.Some? {
      cfg.gcm.SealRoundTrip(keys.value.dek, keys.value.iv, body);
      cfg.gcm.SealRoundTrip(cfg.kek, keys.value.wrapIv, keys.value.dek);
    }
  }

  lemma WorkStoresReadably(cfg: Config, s: State, p: nat, act: Act)
    requires p < |s.procs| && s.procs[p].Worker? && cfg.gcm.Valid()
    ensures var c := PlanWork(cfg, s, p, s.procs[p].job, s.procs[p].phase, act);
            c.Some? ==> StoresReadably(cfg, s, c.value)
  {
    if act.Store? && KeysFit(cfg, act.keys) { SealedReadsBack(cfg, act.body, act.keys); }
  }

  lemma PlansStoreReadably(cfg: Config, s: State, step: Step)
    requires cfg.gcm.Valid()
    ensures var c := Plan(cfg, s, step); c.Some? ==> StoresReadably(cfg, s, c.value)
  {
    if !step.Work? { OtherPlans(cfg, s, step); }
    else if step.p < |s.procs| && s.procs[step.p].Worker? { WorkStoresReadably(cfg, s, step.p, step.act); }
  }

  /** Other transfers' uploads take the location over or leave its object alone. */
  lemma LocationStays(s: State, c: Change, id: Id, at: Location)
    requires !(c.note.Stored? && c.note.id == id)
    ensures var s' := Commit(s, c);
            && (at in s'.log.uploader && s'.log.uploader[at] == id ==>
                  && at in s.log.uploader && s.log.uploader[at] == id
                  && (at in s.objects ==> at in s'.objects && s'.objects[at] == s.objects[at]))
            && (id in s.log.bodies ==> id in s'.log.bodies && s'.log.bodies[id] == s.log.bodies[id])
  {
  }

  lemma ReadsBackStays(cfg: Config, s: State, c: Change, id: Id, at: Location, wrappedDek: Option<Bytes>)
    requires ReadsBack(cfg, s, id, at, wrappedDek) && !(c.note.Stored? && c.note.id == id)
    ensures ReadsBack(cfg, Commit(s, c), id, at, wrappedDek)
  {
    LocationStays(s, c, id, at);
  }

  lemma RowStays(cfg: Config, s: State, c: Change, id: Id)
    requires Inv(cfg, s) && Once.Inv(s) && MarksOwnUpload(cfg, s, c) && StoresReadably(cfg, s, c)
    ensures RowReadsBack(cfg, Commit(s, c), id)
  {
    var s' := Commit(s, c);
    if id in s'.rows && s'.rows[id].status == Success && s'.rows[id].objectKey.Some? {
      if c.rows.ToSuccess? && c.rows.id == id {
        var up := c.rows.up;
        assert UploadReadsBack(cfg, s, Old(s, c));
        ReadsBackStays(cfg, s, c, id, (up.bucket, up.key), up.wrappedDek);
      } else {
        assert s'.rows[id] == s.rows[id] && RowReadsBack(cfg, s, id) && Once.Counted(s, id);
        assert Once.ActorOk(s, Old(s, c));
        ReadsBackStays(cfg, s, c, id, (s.rows[id].bucket, s.rows[id].objectKey.value), s.rows[id].wrappedDek);
      }
    }
  }

  lemma UploadStays(cfg: Config, s: State, c: Change, p: nat)
    requires Inv(cfg, s) && Once.NoOverlap(s) && StoresReadably(cfg, s, c) && p < |Commit(s, c).procs|
    ensures UploadReadsBack(cfg, Commit(s, c), Commit(s, c).procs[p])
  {
    var q := Commit(s, c).procs[p];
    if q.Worker? && q.phase.Uploaded? && p < |s.procs| && c.slot != Some(p) {
      assert UploadReadsBack(cfg, s, q);
      if c.note.Stored? {
        assert Once.RunOf(s.procs[c.slot.value]) == Some(c.note.id);
        assert Once.RunOf(q) != Some(c.note.id);
      }
      ReadsBackStays(cfg, s, c, q.job.id, (q.phase.up.bucket, q.phase.up.key), q.phase.up.wrappedDek);
    }
  }

  lemma StepKeepsInv(cfg: Config, s: State, step: Step)
    requires Inv(cfg, s) && Once.Inv(s) && Once.NoOverlap(s) && cfg.gcm.Valid()
    ensures Inv(cfg, Apply(cfg, s, step))
  {
    var c := Plan(cfg, s, step);
    if c.Some? {
      PlansMarkOwn(cfg, s, step);
      PlansStoreReadably(cfg, s, step);
      forall id ensures RowReadsBack(cfg, Commit(s, c.value), id) { RowStays(cfg, s, c.value, id); }
      forall p | 0 <= p < |Commit(s, c.value).procs|
        ensures UploadReadsBack(cfg, Commit(s, c.value), Commit(s, c.value).procs[p])
      {
        UploadStays(cfg, s, c.value, p);
      }
    }
  }

  lemma {:induction false} RunKeepsInv(cfg: Config, s: State, steps: seq<Step>)
    requires Inv(cfg, s) && Once.Inv(s) && Once.WellBehaved(cfg, s, steps) && cfg.gcm.Valid()
    ensures Inv(cfg, Run(cfg, s, steps))
  {
    if steps != [] {
      var init := steps[..|steps| - 1];
      RunKeepsInv(cfg, s, init);
      Once.RunKeepsInv(cfg, s, init);
      StepKeepsInv(cfg, Run(cfg, s, init), steps[|steps| - 1]);
    }
  }

  /** End to end: a SUCCESS row that was the last to upload to its bucket and key downloads
      to exactly the bytes its upload stream read, encrypted or not. */
  lemma {:induction false} DownloadReturnsTheUpload(cfg: Config, steps: seq<Step>, id: Id)
    requires cfg.gcm.Valid() && Once.WellBehaved(cfg, Init(), steps)
    ensures var s := Run(cfg, Init(), steps);
            id in s.rows && s.rows[id].status == Success ==>
              var row := s.rows[id];
              && row.objectKey.Some?
              && var at := (row.bucket, row.objectKey.value);
                 at in s.log.uploader && s.log.uploader[at] == id ==>
                   && at in s.objects && id in s.log.bodies
                   && Fetch(cfg, row.encrypted, row.wrappedDek, s.objects[at]) == Some(s.log.bodies[id])
                   && |s.objects[at]| == |s.log.bodies[id]| + if cfg.encrypt then 28 else 0
  {
    var s := Run(cfg, Init(), steps);
    SuccessRowsAreCoherent(cfg, steps, id);
    RunKeepsInv(cfg, Init(), steps);
    assert RowReadsBack(cfg, s, id);
  }
}
