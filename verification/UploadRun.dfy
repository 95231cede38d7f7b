/** A whole upload: slots, parallel chunk uploads, the log of uploaded chunks,
    resuming, and the manifest at the end (`Uploader::run`). */
module UploadRun {
  import opened Layout
  import opened ChunkUpload

  // ---- slots --------------------------------------------------------------

  datatype Slot = Slot(index: nat, key: string, url: string)

  function IndexOf(chunks: seq<Chunk>, index: nat): (k: nat)
    ensures k <= |chunks|
    ensures forall j :: 0 <= j < k ==> chunks[j].index != index
    ensures k < |chunks| ==> chunks[k].index == index
  {
    if chunks == [] || chunks[0].index == index then 0 else 1 + IndexOf(chunks[1..], index)
  }

  function WithSlot(c: Chunk, slot: Slot): Chunk {
    c.(key := slot.key, url := Some(slot.url))
  }

  /** The last slot for a chunk wins. */
  function LastFor(slots: seq<Slot>, index: nat): (r: Option<Slot>)
    ensures r.Some? ==> r.value in slots && r.value.index == index
  {
    if slots == [] then None
    else if slots[|slots| - 1].index == index then Some(slots[|slots| - 1])
    else LastFor(slots[..|slots| - 1], index)
  }

  function Assigned(chunks: seq<Chunk>, slots: seq<Slot>): (r: seq<Chunk>)
    ensures |r| == |chunks|
  {
    seq(|chunks|, k requires 0 <= k < |chunks| =>
      match LastFor(slots, chunks[k].index)
      case None => chunks[k]
      case Some(slot) => WithSlot(chunks[k], slot))
  }

  method AssignSlots(chunks: seq<Chunk>, slots: seq<Slot>) returns (r: seq<Chunk>)
    requires DistinctIndexes(chunks)
    ensures r == Assigned(chunks, slots)
  {
    r := chunks;
    assert Assigned(chunks, slots[..0]) == chunks;
    for i := 0 to |slots|
      invariant r == Assigned(chunks, slots[..i])
    {
      assert slots[..i + 1][..i] == slots[..i];
      var k := IndexOf(r, slots[i].index);
      if k < |r| {
        r := r[k := WithSlot(r[k], slots[i])];
      }
      assert r == Assigned(chunks, slots[..i + 1]);
    }
    assert slots[..|slots|] == slots;
  }

  /** The chunk carries both the key and the url of one of the slots. */
  ghost predicate IsGranted(reply: seq<Slot>, c: Chunk) {
    exists slot :: slot in reply && slot.index == c.index && slot.key == c.key && c.url == Some(slot.url)
  }

  lemma AssignedAreGranted(chunks: seq<Chunk>, reply: seq<Slot>)
    ensures forall c :: c in Assigned(chunks, reply) ==> c in chunks || IsGranted(reply, c)
  {
    var r := Assigned(chunks, reply);
    forall c | c in r
      ensures c in chunks || IsGranted(reply, c)
    {
      var k :| 0 <= k < |r| && r[k] == c;
      match LastFor(reply, chunks[k].index)
      case None =>
      case Some(slot) => assert slot in reply;
    }
  }

  /** The indexes for which slots are requested: the last ones, last first. */
  function LastIndexes(chunks: seq<Chunk>, count: nat): (r: seq<nat>) {
    seq(Min(count, |chunks|), j requires 0 <= j < Min(count, |chunks|) => chunks[|chunks| - 1 - j].index)
  }

  /** The last `n` chunks have a url. */
  ghost predicate HasUrls(chunks: seq<Chunk>, n: nat) {
    forall k :: 0 <= k < |chunks| && |chunks| - n <= k ==> chunks[k].url.Some?
  }

  ghost predicate Answers(reply: seq<Slot>, request: seq<nat>) {
    forall i :: 0 <= i < |request| ==> LastFor(reply, request[i]).Some?
  }

  /** A reply with every requested slot gives the last chunks their urls. */
  lemma AnsweredHasUrls(chunks: seq<Chunk>, count: nat, reply: seq<Slot>)
    requires Answers(reply, LastIndexes(chunks, count))
    ensures HasUrls(Assigned(chunks, reply), count)
  {
    var r := Assigned(chunks, reply);
    forall k | 0 <= k < |r| && |r| - count <= k
      ensures r[k].url.Some?
    {
      var j := |chunks| - 1 - k;
      assert LastIndexes(chunks, count)[j] == chunks[k].index;
    }
  }

  /** Enough urls for the next launches, or none at all, which makes the next
      step request them. */
  ghost predicate Ready(chunks: seq<Chunk>, room: nat) {
    chunks == [] || chunks[|chunks| - 1].url.None? || HasUrls(chunks, room)
  }

  // ---- the chunks of one run ----------------------------------------------

  function Unsized(chunks: seq<Chunk>): seq<Chunk> {
    if chunks == [] then []
    else Unsized(chunks[..|chunks| - 1]) +
         if chunks[|chunks| - 1].size == 0 then [chunks[|chunks| - 1]] else []
  }

  lemma {:induction false} UnsizedAre(chunks: seq<Chunk>)
    ensures forall c :: c in Unsized(chunks) <==> c in chunks && c.size == 0
  {
    if chunks != [] {
      var n := |chunks| - 1;
      UnsizedAre(chunks[..n]);
      assert chunks == chunks[..n] + [chunks[n]];
    }
  }

  lemma {:induction false} UnsizedDistinct(chunks: seq<Chunk>)
    requires DistinctIndexes(chunks)
    ensures DistinctIndexes(Unsized(chunks))
  {
    if chunks != [] {
      var n := |chunks| - 1;
      UnsizedDistinct(chunks[..n]);
      UnsizedAre(chunks[..n]);
      forall c | c in Unsized(chunks[..n])
        ensures c.index != chunks[n].index
      {
        assert c in chunks[..n];
      }
      assert forall j :: 0 <= j < |Unsized(chunks[..n])| ==> Unsized(chunks[..n])[j] in Unsized(chunks[..n]);
    }
  }

  function Blank(plan: seq<seq<FileLocation>>): (r: seq<Chunk>)
    ensures |r| == |plan|
  {
    seq(|plan|, k requires 0 <= k < |plan| => Chunk(k, "", None, [], 0, plan[k]))
  }

  /** Every chunk stands at its index. */
  ghost predicate InOrder(manifest: seq<Chunk>, n: nat) {
    |manifest| == n && forall k :: 0 <= k < n ==> manifest[k].index == k
  }

  ghost predicate IsEntry(u: Upload, plan: seq<seq<FileLocation>>, c: Chunk) {
    c.index < |plan| && IsUploaded(u, c.index, plan[c.index], c)
  }

  /** Every chunk of the manifest is in its uploaded form. */
  ghost predicate AllUploaded(u: Upload, plan: seq<seq<FileLocation>>, manifest: seq<Chunk>) {
    |manifest| == |plan| && forall k :: 0 <= k < |plan| ==> IsUploaded(u, k, plan[k], manifest[k])
  }

  // ---- the log of earlier runs --------------------------------------------

  predicate InRange(log: seq<Chunk>, n: nat) {
    forall j :: 0 <= j < |log| ==> log[j].index < n
  }

  ghost predicate NoUrls(log: seq<Chunk>) {
    forall j :: 0 <= j < |log| ==> log[j].url.None?
  }

  /** The last entry of chunk `k`, which is the one that counts. */
  function LastEntry(log: seq<Chunk>, k: nat): (r: Option<Chunk>)
    ensures r.Some? ==> r.value.index == k && r.value in log
  {
    if log == [] then None
    else if log[|log| - 1].index == k then Some(log[|log| - 1])
    else LastEntry(log[..|log| - 1], k)
  }

  /** The manifest of a plan with the log applied. */
  function Applied(plan: seq<seq<FileLocation>>, log: seq<Chunk>): (r: seq<Chunk>)
    ensures |r| == |plan|
  {
    seq(|plan|, k requires 0 <= k < |plan| =>
      match LastEntry(log, k) case None => Blank(plan)[k] case Some(c) => c)
  }

  /** An entry that a resumed run may build on. One without a size is uploaded
      again, so only its destinations matter. */
  ghost predicate Fits(u: Upload, plan: seq<seq<FileLocation>>, k: nat, c: Chunk)
    requires k < |plan|
  {
    if c.size == 0 then c.destinations == plan[k] else IsUploaded(u, k, plan[k], c)
  }

  ghost predicate LogFits(u: Upload, plan: seq<seq<FileLocation>>, log: seq<Chunk>) {
    forall k :: 0 <= k < |plan| && LastEntry(log, k).Some? ==> Fits(u, plan, k, LastEntry(log, k).value)
  }

  /** The log only grew, by uploaded chunks of the plan. */
  ghost predicate AddsEntries(u: Upload, plan: seq<seq<FileLocation>>, log: seq<Chunk>, later: seq<Chunk>) {
    log <= later && forall j :: |log| <= j < |later| ==> IsEntry(u, plan, later[j])
  }

  function Destinations(m0: seq<Chunk>): seq<seq<FileLocation>> {
    seq(|m0|, k requires 0 <= k < |m0| => m0[k].destinations)
  }

  // ---- what is done and what is to do -------------------------------------

  /** `c` is what chunk `k` of the manifest `m0` is to become: a chunk without a
      size is uploaded, any other one is left alone. */
  ghost predicate IsDone(u: Upload, m0: seq<Chunk>, k: nat, c: Chunk)
    requires k < |m0|
  {
    if m0[k].size == 0 then IsUploaded(u, k, m0[k].destinations, c) else c == m0[k]
  }

  predicate IsTodo(m0: seq<Chunk>, c: Chunk) {
    c.index < |m0| && m0[c.index].size == 0 && c.destinations == m0[c.index].destinations
  }

  ghost predicate AllTodo(m0: seq<Chunk>, chunks: seq<Chunk>) {
    forall c :: c in chunks ==> IsTodo(m0, c)
  }

  ghost predicate AllDone(u: Upload, m0: seq<Chunk>, manifest: seq<Chunk>) {
    |manifest| == |m0| && forall k :: 0 <= k < |m0| ==> IsDone(u, m0, k, manifest[k])
  }

  /** Every chunk is done, waiting or in flight. */
  ghost predicate Accounted(u: Upload, m0: seq<Chunk>, manifest: seq<Chunk>, chunks: seq<Chunk>, futures: seq<Chunk>) {
    && InOrder(manifest, |m0|) && DistinctIndexes(chunks)
    && AllTodo(m0, chunks) && AllTodo(m0, futures)
    && (forall k :: 0 <= k < |m0| ==> IsDone(u, m0, k, manifest[k]) || HasIndex(chunks, k) || HasIndex(futures, k))
  }

  lemma HasIndexOf(chunks: seq<Chunk>, c: Chunk)
    requires c in chunks
    ensures HasIndex(chunks, c.index)
  {
  }

  lemma AssignedAccounted(u: Upload, m0: seq<Chunk>, manifest: seq<Chunk>,
                          chunks: seq<Chunk>, futures: seq<Chunk>, slots: seq<Slot>)
    requires Accounted(u, m0, manifest, chunks, futures)
    ensures Accounted(u, m0, manifest, Assigned(chunks, slots), futures)
  {
    var r := Assigned(chunks, slots);
    assert forall k :: 0 <= k < |r| ==> r[k].index == chunks[k].index && r[k].destinations == chunks[k].destinations;
    forall c | c in r
      ensures IsTodo(m0, c)
    {
      var k :| 0 <= k < |r| && r[k] == c;
      assert chunks[k] in chunks;
    }
    forall k | 0 <= k < |m0| && HasIndex(chunks, k)
      ensures HasIndex(r, k)
    {
      var j :| 0 <= j < |chunks| && chunks[j].index == k;
      assert r[j].index == k;
    }
  }

  lemma LaunchedAccounted(u: Upload, m0: seq<Chunk>, manifest: seq<Chunk>, chunks: seq<Chunk>, futures: seq<Chunk>)
    requires Accounted(u, m0, manifest, chunks, futures) && chunks != []
    ensures Accounted(u, m0, manifest, chunks[..|chunks| - 1], futures + [chunks[|chunks| - 1]])
  {
    var n := |chunks| - 1;
    forall k | 0 <= k < |m0| && (HasIndex(chunks, k) || HasIndex(futures, k))
      ensures HasIndex(chunks[..n], k) || HasIndex(futures + [chunks[n]], k)
    {
      if j :| 0 <= j < |futures| && futures[j].index == k {
        assert (futures + [chunks[n]])[j] == futures[j];
      } else {
        var j :| 0 <= j < |chunks| && chunks[j].index == k;
        if j < n {
          assert chunks[..n][j] == chunks[j];
        } else {
          assert (futures + [chunks[n]])[|futures|] == chunks[n];
        }
      }
    }
  }

  lemma MarkedAccounted(u: Upload, m0: seq<Chunk>, manifest: seq<Chunk>,
                        chunks: seq<Chunk>, futures: seq<Chunk>, j: nat, c: Chunk)
    requires Accounted(u, m0, manifest, chunks, futures) && j < |futures| && c.index == futures[j].index < |m0|
    requires IsUploaded(u, c.index, m0[c.index].destinations, c)
    ensures Accounted(u, m0, manifest[c.index := c], chunks, futures[..j] + futures[j + 1..])
  {
    var rest := futures[..j] + futures[j + 1..];
    assert futures[j] in futures;
    forall k | 0 <= k < |m0| && k != c.index && HasIndex(futures, k)
      ensures HasIndex(rest, k)
    {
      var i :| 0 <= i < |futures| && futures[i].index == k;
      assert rest[if i < j then i else i - 1] == futures[i];
    }
    assert forall d :: d in rest ==> d in futures;
  }

  lemma UnsizedAccounted(u: Upload, m0: seq<Chunk>)
    requires InOrder(m0, |m0|)
    ensures Accounted(u, m0, m0, Unsized(m0), [])
  {
    UnsizedDistinct(m0);
    UnsizedAre(m0);
    forall k | 0 <= k < |m0| && m0[k].size == 0
      ensures HasIndex(Unsized(m0), k)
    {
      assert m0[k] in Unsized(m0);
      HasIndexOf(Unsized(m0), m0[k]);
    }
  }

  lemma IndexInOrder(manifest: seq<Chunk>, n: nat, index: nat)
    requires InOrder(manifest, n)
    ensures IndexOf(manifest, index) == if index < n then index else n
  {
    var k := IndexOf(manifest, index);
    assert k < n ==> manifest[k].index == k;
    assert index < n ==> manifest[index].index == index;
  }

  class ChunkUploaders {
    const maxRunners: nat
    var chunks: seq<Chunk>       // the last is next
    var futures: seq<Chunk>      // in flight

    constructor (manifest: seq<Chunk>, maxRunners: nat, maxOpenedFiles: nat)
      ensures this.maxRunners == Min(maxRunners, maxOpenedFiles)
      ensures chunks == Unsized(manifest) && futures == []
    {
      this.maxRunners := Min(maxRunners, maxOpenedFiles);
      chunks := Unsized(manifest);
      futures := [];
    }

    /** Requests slots when the next chunk has no url. */
    method UpdateSlots(serve: seq<nat> -> Option<seq<Slot>>) returns (ok: bool)
      requires DistinctIndexes(chunks)
      modifies this`chunks
      ensures old(chunks) == [] || old(chunks)[|old(chunks)| - 1].url.Some? ==> ok && chunks == old(chunks)
      ensures old(chunks) != [] && old(chunks)[|old(chunks)| - 1].url.None? ==>
                var reply := serve(LastIndexes(old(chunks), maxRunners));
                && (ok <==> reply.Some?)
                && chunks == if ok then Assigned(old(chunks), reply.value) else old(chunks)
    {
      ok := true;
      if |chunks| > 0 && chunks[|chunks| - 1].url.None? {
        var reply := serve(LastIndexes(chunks, maxRunners));
        if reply.None? {
          return false;
        }
        chunks := AssignSlots(chunks, reply.value);
      }
    }

    method LaunchMore(ghost u: Upload, ghost m0: seq<Chunk>, ghost manifest: seq<Chunk>)
      returns (ghost launched: seq<Chunk>)
      requires Accounted(u, m0, manifest, chunks, futures) && |futures| <= maxRunners
      modifies this
      ensures Accounted(u, m0, manifest, chunks, futures)
      ensures old(chunks) == chunks + Reversed(launched) && futures == old(futures) + launched
      ensures forall c :: c in launched ==> c in old(chunks)
      ensures |futures| <= maxRunners && (chunks == [] || |futures| == maxRunners)
      ensures HasUrls(old(chunks), maxRunners - |old(futures)|) ==> AllHaveUrls(launched)
    {
      launched := [];
      ghost var ready := HasUrls(chunks, maxRunners - |futures|);
      while |futures| < maxRunners && |chunks| > 0
        invariant Accounted(u, m0, manifest, chunks, futures)
        invariant old(chunks) == chunks + Reversed(launched) && futures == old(futures) + launched
        invariant forall c :: c in launched ==> c in old(chunks)
        invariant |futures| <= maxRunners
        invariant ready ==> HasUrls(chunks, maxRunners - |futures|) && AllHaveUrls(launched)
        decreases |chunks|
      {
        var n := |chunks| - 1;
        var chunk := chunks[n];
        LaunchedAccounted(u, m0, manifest, chunks, futures);
        ReversedAppend(launched, chunk);
        chunks := chunks[..n];
        futures := futures + [chunk];
        launched := launched + [chunk];
      }
    }
  }

  // ---- one run ------------------------------------------------------------

  datatype SaveFault = Saved | LogFails | ProgressFails
  datatype CleanupFault = Cleaned | NothingRemoved | OnlyBlueprintRemoved

  /** Everything a run does not decide itself. Times count its steps. */
  datatype Env = Env(
    stampMatches: bool,                              // a readable blueprint of the present data
    logReadable: bool,
    serve: (nat, seq<nat>) -> Option<seq<Slot>>,
    blueprintSaved: bool,
    stopAt: nat,                                     // when the run flag goes down
    crashAt: nat,
    pick: nat -> nat,                                // which upload finishes next
    succeeds: nat -> bool,
    fatal: nat -> bool,                              // an error that cannot be recovered from
    save: nat -> SaveFault,
    manifestAccepted: bool,
    cleanup: CleanupFault)

  /** For `turns` turns and what follows them, nobody and nothing interferes. */
  ghost predicate AllGoesWell(env: Env, turns: nat) {
    && (forall t, request :: env.serve(t, request).Some?) && AlwaysAnswers(env)
    && env.blueprintSaved && (forall t :: env.succeeds(t) && env.save(t).Saved?)
    && env.stopAt > turns && env.crashAt > turns && env.manifestAccepted && env.cleanup.Cleaned?
  }

  ghost predicate AlwaysAnswers(env: Env) {
    forall t, request :: env.serve(t, request).Some? ==> Answers(env.serve(t, request).value, request)
  }

  datatype Outcome = Sent | Interrupted | Errored | Crashed

  // ---- what a run did, turn by turn ---------------------------------------

  /** The chunks launched, the uploads that finished, one in each turn, and the
      requests for slots, by turn. */
  datatype History = History(launched: seq<Chunk>, taken: seq<Chunk>, asked: map<nat, seq<nat>>)

  const NO_HISTORY: History := History([], [], map[])

  /** The upload taken in turn `t` succeeds and is recorded. */
  predicate Finishes(u: Upload, env: Env, t: nat, c: Chunk) {
    env.succeeds(t) && Published(u, c).Some? && env.save(t).Saved?
  }

  predicate IsRefused(env: Env, t: nat, asked: Option<seq<nat>>) {
    asked.Some? && env.serve(t, asked.value).None?
  }

  predicate FailsIn(u: Upload, env: Env, t: nat, taken: Option<Chunk>) {
    taken.Some? && !Finishes(u, env, t, taken.value)
  }

  function AskedAt(h: History, t: nat): Option<seq<nat>> {
    if t in h.asked then Some(h.asked[t]) else None
  }

  function TakenAt(h: History, t: nat): Option<Chunk> {
    if t < |h.taken| then Some(h.taken[t]) else None
  }

  /** In turn `t` slots were refused, or the upload that finished failed or could
      not be recorded. */
  predicate TroubleAt(u: Upload, env: Env, h: History, t: nat) {
    IsRefused(env, t, AskedAt(h, t)) || FailsIn(u, env, t, TakenAt(h, t))
  }

  ghost predicate NoTrouble(u: Upload, env: Env, h: History, turns: nat) {
    forall t :: 0 <= t < turns ==> !TroubleAt(u, env, h, t)
  }

  ghost predicate FirstTrouble(u: Upload, env: Env, h: History, t: nat) {
    TroubleAt(u, env, h, t) && NoTrouble(u, env, h, t)
  }

  function Extended(h: History, t: nat, launched: seq<Chunk>, asked: Option<seq<nat>>, taken: Option<Chunk>): History {
    History(h.launched + launched, if taken.Some? then h.taken + [taken.value] else h.taken,
            if asked.Some? then h.asked[t := asked.value] else h.asked)
  }

  lemma TroubleMore(u: Upload, env: Env, h: History, t: nat, launched: seq<Chunk>, asked: Option<seq<nat>>,
                    taken: Option<Chunk>)
    requires |h.taken| == t && forall s :: s in h.asked ==> s < t
    ensures var later := Extended(h, t, launched, asked, taken);
            && (TroubleAt(u, env, later, t) <==> IsRefused(env, t, asked) || FailsIn(u, env, t, taken))
            && (forall s :: 0 <= s < t ==> (TroubleAt(u, env, later, s) <==> TroubleAt(u, env, h, s)))
            && (NoTrouble(u, env, later, t + 1) <==>
                  NoTrouble(u, env, h, t) && !IsRefused(env, t, asked) && !FailsIn(u, env, t, taken))
  {
    var later := Extended(h, t, launched, asked, taken);
    forall s | 0 <= s < t
      ensures TroubleAt(u, env, later, s) <==> TroubleAt(u, env, h, s)
    {
      assert AskedAt(later, s) == AskedAt(h, s) && TakenAt(later, s) == TakenAt(h, s);
    }
    assert AskedAt(later, t) == asked && TakenAt(later, t) == taken;
  }

  /** A chunk to upload is one of the manifest, with the key and url of a slot if
      it was given one since. */
  ghost predicate Comes(env: Env, m0: seq<Chunk>, asked: map<nat, seq<nat>>, c: Chunk) {
    c in m0 || exists t :: t in asked && GrantedAt(env, t, Some(asked[t]), c)
  }

  ghost predicate GrantedAt(env: Env, t: nat, asked: Option<seq<nat>>, c: Chunk) {
    asked.Some? && env.serve(t, asked.value).Some? && IsGranted(env.serve(t, asked.value).value, c)
  }

  /** What a launch in turn `t` does to the chunks that wait. */
  ghost predicate Launches(env: Env, t: nat, runners: nat, chunks: seq<Chunk>, later: seq<Chunk>,
                           launched: seq<Chunk>, asked: Option<seq<nat>>) {
    && |later| + |launched| == |chunks|
    && (forall k :: 0 <= k < |later| ==> later[k].index == chunks[k].index)
    && (forall c :: c in later || c in launched ==> c in chunks || GrantedAt(env, t, asked, c))
    && (asked.Some? ==> chunks != [] && asked.value == LastIndexes(chunks, runners))
  }

  /** A request names the last chunks that still wait, one for each runner. */
  ghost predicate IsAsk(waiting: seq<Chunk>, runners: nat, request: seq<nat>) {
    && |request| <= runners
    && exists n :: 0 < n <= |waiting| && request == LastIndexes(waiting[..n], runners)
  }

  /** The chunk at `k` is as it was, or as an upload that was taken left it, with
      the key under which that was sent. */
  ghost predicate IsFromUpload(u: Upload, taken: seq<Chunk>, k: nat, c: Chunk) {
    exists j :: 0 <= j < |taken| && taken[j].index == k && taken[j].key == c.key && Published(u, taken[j]) == Some(c)
  }

  /** How the history accounts for the chunks after `|h.taken|` turns. */
  ghost predicate Accounts(u: Upload, env: Env, runners: nat, m0: seq<Chunk>, m: seq<Chunk>,
                           chunks: seq<Chunk>, futures: seq<Chunk>, h: History) {
    && |chunks| + |h.launched| == |Unsized(m0)| && |h.launched| == |h.taken| + |futures|
    && (forall k :: 0 <= k < |chunks| ==> chunks[k].index == Unsized(m0)[k].index)
    && AllTodo(m0, h.launched) && (forall c :: c in chunks || c in h.launched ==> Comes(env, m0, h.asked, c))
    && (forall c :: c in futures || c in h.taken ==> c in h.launched)
    && (forall t :: t in h.asked ==> t <= |h.taken| && IsAsk(Unsized(m0), runners, h.asked[t]))
    && |m| == |m0| && forall k :: 0 <= k < |m0| ==> m[k] == m0[k] || IsFromUpload(u, h.taken, k, m[k])
  }

  /** Some reply of the server granted the key together with the url. */
  ghost predicate GrantedBy(env: Env, c: Chunk) {
    exists t, request :: env.serve(t, request).Some? && IsGranted(env.serve(t, request).value, c)
  }

  ghost predicate AllGranted(env: Env, chunks: seq<Chunk>) {
    forall c :: c in chunks && c.url.Some? ==> GrantedBy(env, c)
  }

  /** What a turn does: a launch, and at most one upload taken. */
  ghost predicate TurnDid(u: Upload, m: seq<Chunk>, m': seq<Chunk>, futures: seq<Chunk>, rest: seq<Chunk>,
                          launched: seq<Chunk>, taken: Option<Chunk>) {
    && |rest| + (if taken.Some? then 1 else 0) == |futures| + |launched|
    && (forall c :: c in rest ==> c in futures || c in launched)
    && (taken.Some? ==> taken.value in futures || taken.value in launched)
    && (m' == m || (taken.Some? && IsMarked(u, m, m', taken.value)))
  }

  predicate IsMarked(u: Upload, m: seq<Chunk>, m': seq<Chunk>, taken: Chunk) {
    && Published(u, taken).Some? && taken.index < |m|
    && m' == m[taken.index := Published(u, taken).value]
  }

  lemma ComesMore(env: Env, m0: seq<Chunk>, h: History, t: nat, launched: seq<Chunk>, asked: Option<seq<nat>>,
                  taken: Option<Chunk>, c: Chunk)
    requires forall s :: s in h.asked ==> s < t
    requires Comes(env, m0, h.asked, c) || GrantedAt(env, t, asked, c)
    ensures Comes(env, m0, Extended(h, t, launched, asked, taken).asked, c)
  {
    var later := Extended(h, t, launched, asked, taken).asked;
    if GrantedAt(env, t, asked, c) {
      assert t in later && Some(later[t]) == asked;
    } else if c !in m0 {
      var s :| s in h.asked && GrantedAt(env, s, Some(h.asked[s]), c);
      assert s in later && later[s] == h.asked[s];
    }
  }

  lemma LaunchesGiven(env: Env, t: nat, runners: nat, before: seq<Chunk>, given: seq<Chunk>, later: seq<Chunk>,
                      launched: seq<Chunk>, asked: Option<seq<nat>>)
    requires given == later + Reversed(launched) && AreGiven(env, t, before, given, asked)
    requires forall c :: c in launched ==> c in given
    requires asked.Some? ==> before != [] && asked.value == LastIndexes(before, runners)
    ensures Launches(env, t, runners, before, later, launched, asked)
  {
    assert forall k :: 0 <= k < |later| ==> later[k] == given[k];
    assert forall c :: c in later ==> c in given;
  }

  /** The chunks that wait, before and after slots were assigned to them. */
  ghost predicate AreGiven(env: Env, t: nat, before: seq<Chunk>, given: seq<Chunk>, asked: Option<seq<nat>>) {
    && |given| == |before|
    && (forall k :: 0 <= k < |given| ==> given[k].index == before[k].index)
    && (forall c :: c in given ==> c in before || GrantedAt(env, t, asked, c))
  }

  lemma SlotsGiven(env: Env, t: nat, u: Upload, m0: seq<Chunk>, m: seq<Chunk>, before: seq<Chunk>, given: seq<Chunk>,
                   futures: seq<Chunk>, runners: nat, asked: Option<seq<nat>>)
    requires Accounted(u, m0, m, before, futures)
    requires match asked
             case None => given == before
             case Some(request) =>
               && request == LastIndexes(before, runners) && env.serve(t, request).Some?
               && given == Assigned(before, env.serve(t, request).value)
    ensures Accounted(u, m0, m, given, futures) && AreGiven(env, t, before, given, asked)
    ensures asked.Some? && AlwaysAnswers(env) ==> HasUrls(given, runners)
  {
    if asked.Some? {
      var reply := env.serve(t, asked.value).value;
      AssignedAccounted(u, m0, m, before, futures, reply);
      AssignedAreGranted(before, reply);
      if AlwaysAnswers(env) {
        AnsweredHasUrls(before, runners, reply);
      }
    }
  }

  lemma SameIndexesAsk(a: seq<Chunk>, b: seq<Chunk>, runners: nat, request: seq<nat>)
    requires |a| == |b| && (forall k :: 0 <= k < |a| ==> a[k].index == b[k].index) && IsAsk(a, runners, request)
    ensures IsAsk(b, runners, request)
  {
    var n :| 0 < n <= |a| && request == LastIndexes(a[..n], runners);
    SameIndexesAsked(a[..n], b[..n], runners);
  }

  lemma AskIsAsk(waiting: seq<Chunk>, runners: nat, chunks: seq<Chunk>)
    requires chunks != [] && |chunks| <= |waiting|
    requires forall k :: 0 <= k < |chunks| ==> chunks[k].index == waiting[k].index
    ensures IsAsk(waiting, runners, LastIndexes(chunks, runners))
  {
    SameIndexesAsked(chunks, waiting[..|chunks|], runners);
  }

  lemma SameIndexesAsked(a: seq<Chunk>, b: seq<Chunk>, runners: nat)
    requires |a| == |b| && forall k :: 0 <= k < |a| ==> a[k].index == b[k].index
    ensures LastIndexes(a, runners) == LastIndexes(b, runners)
  {
  }

  lemma MarkedComes(u: Upload, m0: seq<Chunk>, m: seq<Chunk>, m': seq<Chunk>, h: History, t: nat,
                    launched: seq<Chunk>, asked: Option<seq<nat>>, taken: Option<Chunk>, k: nat)
    requires |m| == |m0| == |m'| && k < |m0|
    requires m[k] == m0[k] || IsFromUpload(u, h.taken, k, m[k])
    requires m' == m || (taken.Some? && IsMarked(u, m, m', taken.value))
    ensures m'[k] == m0[k] || IsFromUpload(u, Extended(h, t, launched, asked, taken).taken, k, m'[k])
  {
    var later := Extended(h, t, launched, asked, taken).taken;
    if m'[k] != m[k] {
      assert later[|h.taken|] == taken.value;
    } else if m[k] != m0[k] {
      var j :| 0 <= j < |h.taken| && h.taken[j].index == k && h.taken[j].key == m[k].key
               && Published(u, h.taken[j]) == Some(m[k]);
      assert later[j] == h.taken[j];
    }
  }

  lemma AccountsMore(u: Upload, env: Env, runners: nat, m0: seq<Chunk>, m: seq<Chunk>, m': seq<Chunk>,
                     chunks: seq<Chunk>, later: seq<Chunk>, futures: seq<Chunk>, rest: seq<Chunk>, h: History,
                     launched: seq<Chunk>, asked: Option<seq<nat>>, taken: Option<Chunk>)
    requires Accounts(u, env, runners, m0, m, chunks, futures, h) && forall s :: s in h.asked ==> s < |h.taken|
    requires Launches(env, |h.taken|, runners, chunks, later, launched, asked)
    requires TurnDid(u, m, m', futures, rest, launched, taken) && AllTodo(m0, launched)
    ensures Accounts(u, env, runners, m0, m', later, rest, Extended(h, |h.taken|, launched, asked, taken))
  {
    var t := |h.taken|;
    var next := Extended(h, t, launched, asked, taken);
    forall c | c in later || c in next.launched
      ensures Comes(env, m0, next.asked, c)
    {
      ComesMore(env, m0, h, t, launched, asked, taken, c);
    }
    if asked.Some? {
      AskIsAsk(Unsized(m0), runners, chunks);
    }
    forall k | 0 <= k < |m0|
      ensures m'[k] == m0[k] || IsFromUpload(u, next.taken, k, m'[k])
    {
      MarkedComes(u, m0, m, m', h, t, launched, asked, taken, k);
    }
  }

  ghost predicate AllHaveUrls(chunks: seq<Chunk>) {
    forall j :: 0 <= j < |chunks| ==> chunks[j].url.Some?
  }

  class Uploader {
    const u: Upload
    const plan: seq<seq<FileLocation>>
    const maxRunners: nat
    const maxOpenedFiles: nat
    var blueprint: Option<seq<Chunk>>     // saved files
    var log: seq<Chunk>

    constructor (u: Upload, plan: seq<seq<FileLocation>>, maxRunners: nat, maxOpenedFiles: nat,
                 blueprint: Option<seq<Chunk>>, log: seq<Chunk>)
      ensures this.u == u && this.plan == plan && this.maxRunners == maxRunners
      ensures this.maxOpenedFiles == maxOpenedFiles && this.blueprint == blueprint && this.log == log
    {
      this.u, this.plan := u, plan;
      this.maxRunners, this.maxOpenedFiles := maxRunners, maxOpenedFiles;
      this.blueprint, this.log := blueprint, log;
    }

    predicate Resumes(env: Env)
      reads this
    {
      blueprint.Some? && env.stampMatches
    }

    /** The saved manifest with the log of earlier runs applied; an entry for a
        chunk that does not exist is an error. */
    method Resume(env: Env) returns (manifest: Option<seq<Chunk>>)
      requires blueprint == Some(Blank(plan))
      ensures manifest == if env.logReadable && InRange(log, |plan|) then Some(Applied(plan, log)) else None
    {
      if !env.logReadable {
        return None;
      }
      var m := blueprint.value;
      assert m == Applied(plan, log[..0]);
      for j := 0 to |log|
        invariant m == Applied(plan, log[..j]) && InRange(log[..j], |plan|)
      {
        AppliedInOrder(plan, log[..j]);
        IndexInOrder(m, |plan|, log[j].index);
        var k := IndexOf(m, log[j].index);
        assert log[..j + 1][..j] == log[..j];
        if k >= |m| {
          return None;
        }
        m := m[k := log[j]];
        assert m == Applied(plan, log[..j + 1]);
      }
      assert log[..|log|] == log;
      manifest := Some(m);
    }

    /** A new manifest, saved before it gets its first slots. */
    method StartOver(env: Env) returns (manifest: Option<seq<Chunk>>)
      modifies this`blueprint
      ensures manifest.Some? ==>
                && blueprint == Some(Blank(plan))
                && StartsAs(plan, [], manifest.value) && IsUnfinished(manifest.value)
                && (AlwaysAnswers(env) ==> HasUrls(manifest.value, maxRunners)) && AllGranted(env, manifest.value)
      ensures manifest.None? ==> blueprint == old(blueprint) || blueprint == None
      ensures manifest.Some? <==> env.serve(0, LastIndexes(Blank(plan), maxRunners)).Some? && env.blueprintSaved
    {
      var m := Blank(plan);
      var reply := env.serve(0, LastIndexes(m, maxRunners));
      if reply.None? {
        return None;
      }
      if !env.blueprintSaved {
        blueprint := None;
        return None;
      }
      blueprint := Some(m);
      if AlwaysAnswers(env) {
        AnsweredHasUrls(m, maxRunners, reply.value);
      }
      BlankWithSlots(plan, reply.value);
      BlankGranted(env, plan, LastIndexes(m, maxRunners), reply.value);
      m := AssignSlots(m, reply.value);
      manifest := Some(m);
    }

    /** What a run finds of earlier ones: nothing if it starts over. */
    ghost function Found(env: Env): seq<Chunk>
      reads this
    {
      if Resumes(env) then log else []
    }

    /** The run gets a manifest to work on. */
    predicate Starts(env: Env)
      reads this
    {
      if Resumes(env) then env.logReadable && InRange(log, |plan|)
      else env.serve(0, LastIndexes(Blank(plan), maxRunners)).Some? && env.blueprintSaved
    }

    /** The manifest to work on. */
    method Start(env: Env) returns (manifest: Option<seq<Chunk>>)
      requires Resumes(env) ==> blueprint == Some(Blank(plan))
      modifies this`blueprint
      ensures manifest.Some? ==> blueprint == Some(Blank(plan)) && StartsAs(plan, old(Found(env)), manifest.value)
      ensures manifest.Some? <==> old(Starts(env))
      ensures manifest.Some? && AlwaysAnswers(env) && NoUrls(old(Found(env))) ==>
                Ready(Unsized(manifest.value), maxRunners)
      ensures manifest.Some? ==> IsStart(env, old(Found(env)), manifest.value)
      ensures old(Resumes(env)) ==>
                && manifest == (if env.logReadable && InRange(log, |plan|) then Some(Applied(plan, log)) else None)
                && blueprint == old(blueprint)
      ensures !old(Resumes(env)) ==>
                && (manifest.Some? ==> IsUnfinished(manifest.value))
                && (manifest.None? ==> blueprint == old(blueprint) || blueprint == None)
    {
      if Resumes(env) {
        manifest := Resume(env);
        if manifest.Some? {
          AppliedStarts(plan, log);
          if NoUrls(log) {
            LastUnsized(manifest.value);
          }
        }
      } else {
        manifest := StartOver(env);
        if manifest.Some? {
          AllUnsized(manifest.value);
        }
      }
    }

    /** One finished upload: logged first, then marked in the manifest. */
    method FinishOne(env: Env, t: nat, uploaders: ChunkUploaders, ghost m0: seq<Chunk>, m: seq<Chunk>)
      returns (ok: bool, m': seq<Chunk>, ghost taken: Chunk)
      requires uploaders.futures != [] && InOrder(m, |m0|) && AllTodo(m0, uploaders.futures)
      modifies this`log, uploaders`futures
      ensures AllTodo(m0, uploaders.futures) && InOrder(m', |m0|)
      ensures TurnDid(u, m, m', old(uploaders.futures), uploaders.futures, [], Some(taken))
      ensures ok <==> Finishes(u, env, t, taken)
      ensures AddsEntries(u, Destinations(m0), old(log), log)
      ensures ok && Accounted(u, m0, m, uploaders.chunks, old(uploaders.futures)) ==>
                Accounted(u, m0, m', uploaders.chunks, uploaders.futures)
    {
      m' := m;
      var waiting := uploaders.futures;
      var j := env.pick(t) % |waiting|;
      taken := waiting[j];
      uploaders.futures := waiting[..j] + waiting[j + 1..];
      assert forall c :: c in uploaders.futures ==> c in waiting;
      var result := Published(u, waiting[j]);
      if !env.succeeds(t) || result.None? {
        return false, m, taken;
      }
      assert waiting[j] in waiting;
      if env.save(t).LogFails? {
        return false, m, taken;
      }
      assert IsEntry(u, Destinations(m0), result.value);
      log := log + [result.value];
      IndexInOrder(m, |m0|, result.value.index);
      var k := IndexOf(m, result.value.index);
      m' := m[k := result.value];
      if Accounted(u, m0, m, uploaders.chunks, waiting) {
        MarkedAccounted(u, m0, m, uploaders.chunks, waiting, j, result.value);
      }
      ok := env.save(t).Saved?;
    }

    /** Fills the free runners, each with a chunk that has a url. */
    method Launch(env: Env, t: nat, uploaders: ChunkUploaders, ghost m0: seq<Chunk>, ghost m: seq<Chunk>)
      returns (ok: bool, ghost launched: seq<Chunk>, ghost asked: Option<seq<nat>>)
      requires Accounted(u, m0, m, uploaders.chunks, uploaders.futures)
      requires |uploaders.futures| <= uploaders.maxRunners
      modifies uploaders
      ensures Accounted(u, m0, m, uploaders.chunks, uploaders.futures)
      ensures Launches(env, t, uploaders.maxRunners, old(uploaders.chunks), uploaders.chunks, launched, asked)
      ensures uploaders.futures == old(uploaders.futures) + launched
      ensures var chunks := old(uploaders.chunks);
              asked.Some? <==> chunks != [] && chunks[|chunks| - 1].url.None?
      ensures ok <==> !IsRefused(env, t, asked)
      ensures |uploaders.futures| <= uploaders.maxRunners
      ensures ok ==> uploaders.chunks == [] || |uploaders.futures| == uploaders.maxRunners
      ensures AlwaysAnswers(env) && Ready(old(uploaders.chunks), uploaders.maxRunners - old(|uploaders.futures|)) ==>
                AllHaveUrls(launched)
    {
      launched, asked := [], None;
      ghost var before := uploaders.chunks;
      ok := uploaders.UpdateSlots(request => env.serve(t, request));
      if before != [] && before[|before| - 1].url.None? {
        asked := Some(LastIndexes(before, uploaders.maxRunners));
      }
      if !ok {
        return;
      }
      ghost var given := uploaders.chunks;
      SlotsGiven(env, t, u, m0, m, before, given, uploaders.futures, uploaders.maxRunners, asked);
      launched := uploaders.LaunchMore(u, m0, m);
      LaunchesGiven(env, t, uploaders.maxRunners, before, given, uploaders.chunks, launched, asked);
    }

    function Runners(): nat {
      Min(maxRunners, maxOpenedFiles)
    }

    /** Between two turns of the main loop: while there was no error, every
        chunk is accounted for. */
    ghost predicate Underway(ok: bool, m0: seq<Chunk>, m: seq<Chunk>, chunks: seq<Chunk>, futures: seq<Chunk>) {
      && InOrder(m, |m0|) && AllTodo(m0, futures) && |futures| <= Runners()
      && (ok ==> Accounted(u, m0, m, chunks, futures))
    }

    /** One turn: launch, then take one finished upload unless none is in flight. */
    method Turn(env: Env, t: nat, uploaders: ChunkUploaders, ghost m0: seq<Chunk>, m: seq<Chunk>, ok: bool)
      returns (ok': bool, m': seq<Chunk>, idle: bool, ghost launched: seq<Chunk>, ghost asked: Option<seq<nat>>,
               ghost taken: Option<Chunk>)
      requires Underway(ok, m0, m, uploaders.chunks, uploaders.futures) && uploaders.maxRunners == Runners()
      modifies this`log, uploaders
      ensures Underway(ok', m0, m', uploaders.chunks, uploaders.futures)
      ensures Launches(env, t, Runners(), old(uploaders.chunks), uploaders.chunks, launched, asked)
      ensures TurnDid(u, m, m', old(uploaders.futures), uploaders.futures, launched, taken)
      ensures ok' <==> ok && !IsRefused(env, t, asked) && !FailsIn(u, env, t, taken)
      ensures !ok ==> asked == None && launched == []
      ensures AllTodo(m0, launched)
      ensures AddsEntries(u, Destinations(m0), old(log), log) && (taken.None? ==> log == old(log))
      ensures idle <==> taken.None?
      ensures idle ==> uploaders.futures == [] && (ok' && Runners() > 0 ==> uploaders.chunks == [])
      ensures Runners() == 0 ==> launched == []
      ensures AlwaysAnswers(env) && (ok ==> Ready(old(uploaders.chunks), Runners() - old(|uploaders.futures|))) ==>
                && AllHaveUrls(launched)
                && (ok' && !idle ==> Ready(uploaders.chunks, Runners() - |uploaders.futures|))
    {
      ok', m', launched, asked, taken := ok, m, [], None, None;
      if ok {
        ok', launched, asked := Launch(env, t, uploaders, m0, m);
        assert forall c :: c in launched ==> c in uploaders.futures;
      }
      idle := |uploaders.futures| == 0;
      if !idle {
        var saved;
        ghost var one;
        saved, m', one := FinishOne(env, t, uploaders, m0, m);
        ok', taken := ok' && saved, Some(one);
      }
    }

    /** Where the main loop is after `end` turns. */
    ghost predicate IsAt(env: Env, m0: seq<Chunk>, m: seq<Chunk>, chunks: seq<Chunk>, futures: seq<Chunk>, ok: bool,
                         h: History, end: nat, turns: nat, failedAt: nat) {
      && Underway(ok, m0, m, chunks, futures) && Accounts(u, env, Runners(), m0, m, chunks, futures, h)
      && |h.taken| == end <= turns <= end + 1 && (forall t :: t in h.asked ==> t < turns)
      && (Runners() == 0 ==> h.launched == [])
      && (ok <==> NoTrouble(u, env, h, turns))
      && (!ok ==> FirstTrouble(u, env, h, failedAt) && failedAt < turns)
    }

    lemma TurnMoves(env: Env, m0: seq<Chunk>, m: seq<Chunk>, m': seq<Chunk>, chunks: seq<Chunk>, later: seq<Chunk>,
                    futures: seq<Chunk>, rest: seq<Chunk>, ok: bool, ok': bool, h: History, end: nat, failedAt: nat,
                    launched: seq<Chunk>, asked: Option<seq<nat>>, taken: Option<Chunk>)
      requires IsAt(env, m0, m, chunks, futures, ok, h, end, end, failedAt) && Underway(ok', m0, m', later, rest)
      requires Launches(env, end, Runners(), chunks, later, launched, asked)
      requires TurnDid(u, m, m', futures, rest, launched, taken) && AllTodo(m0, launched)
      requires Runners() == 0 ==> launched == []
      requires ok' <==> ok && !IsRefused(env, end, asked) && !FailsIn(u, env, end, taken)
      ensures IsAt(env, m0, m', later, rest, ok', Extended(h, end, launched, asked, taken),
                   if taken.Some? then end + 1 else end, end + 1, if ok then end else failedAt)
    {
      AccountsMore(u, env, Runners(), m0, m, m', chunks, later, futures, rest, h, launched, asked, taken);
      TroubleMore(u, env, h, end, launched, asked, taken);
    }

    /** The main loop was neither stopped nor cut short. */
    predicate RanFreely(env: Env, end: nat) {
      end < env.stopAt && end != env.crashAt
    }

    /** What the main loop has done: everything it launched was waited for, unless
        it was stopped; without trouble, everything there was to upload. */
    ghost predicate Ran(env: Env, m0: seq<Chunk>, m: seq<Chunk>, ok: bool, h: History, failedAt: nat) {
      var end := |h.taken|;
      && end <= |h.launched| <= |Unsized(m0)| && (Runners() == 0 ==> h.launched == [])
      && AllTodo(m0, h.launched) && (forall c :: c in h.launched ==> Comes(env, m0, h.asked, c))
      && (forall c :: c in h.taken ==> c in h.launched)
      && (forall t :: t in h.asked ==> t <= end && IsAsk(Unsized(m0), Runners(), h.asked[t]))
      && (ok <==> NoTrouble(u, env, h, end + 1))
      && (!ok ==> FirstTrouble(u, env, h, failedAt) && failedAt <= end)
      && (RanFreely(env, end) ==> |h.launched| == end)
      && (ok && RanFreely(env, end) && Runners() > 0 ==> end == |Unsized(m0)| && AllDone(u, m0, m))
      && |m| == |m0| && forall k :: 0 <= k < |m0| ==> m[k] == m0[k] || IsFromUpload(u, h.taken, k, m[k])
    }

    lemma LoopStarts(env: Env, m0: seq<Chunk>)
      requires InOrder(m0, |m0|)
      ensures IsAt(env, m0, m0, Unsized(m0), [], true, NO_HISTORY, 0, 0, 0)
    {
      UnsizedAccounted(u, m0);
    }

    lemma LoopEnds(env: Env, m0: seq<Chunk>, m: seq<Chunk>, chunks: seq<Chunk>, futures: seq<Chunk>, ok: bool,
                   h: History, end: nat, turns: nat, failedAt: nat)
      requires IsAt(env, m0, m, chunks, futures, ok, h, end, turns, failedAt)
      requires RanFreely(env, end) ==> futures == [] && (ok && Runners() > 0 ==> chunks == [])
      ensures Ran(env, m0, m, ok, h, failedAt)
    {
      if turns == end {
        assert AskedAt(h, end) == None && TakenAt(h, end) == None;
        assert !TroubleAt(u, env, h, end);
      }
    }

    /** If the server always answers, chunks are only launched with urls. */
    ghost predicate WithUrls(env: Env, m0: seq<Chunk>, ok: bool, chunks: seq<Chunk>, futures: seq<Chunk>, h: History)
      requires |futures| <= Runners()
    {
      AlwaysAnswers(env) && Ready(Unsized(m0), Runners()) ==>
        AllHaveUrls(h.launched) && (ok ==> Ready(chunks, Runners() - |futures|))
    }

    /** One turn of the main loop. */
    method Advance(env: Env, uploaders: ChunkUploaders, ghost m0: seq<Chunk>, m: seq<Chunk>, ok: bool, end: nat,
                   ghost h: History, ghost failedAt: nat)
      returns (ok': bool, m': seq<Chunk>, idle: bool, ghost h': History, ghost failedAt': nat)
      requires IsAt(env, m0, m, uploaders.chunks, uploaders.futures, ok, h, end, end, failedAt)
      requires WithUrls(env, m0, ok, uploaders.chunks, uploaders.futures, h) && uploaders.maxRunners == Runners()
      modifies this`log, uploaders
      ensures IsAt(env, m0, m', uploaders.chunks, uploaders.futures, ok', h', if idle then end else end + 1, end + 1,
                   failedAt')
      ensures WithUrls(env, m0, ok' && !idle, uploaders.chunks, uploaders.futures, h')
      ensures (ok' ==> ok) && failedAt' == if ok then end else failedAt
      ensures AddsEntries(u, Destinations(m0), old(log), log) && (idle ==> log == old(log))
      ensures idle ==> uploaders.futures == [] && (ok' && Runners() > 0 ==> uploaders.chunks == [])
    {
      ghost var chunks, futures := uploaders.chunks, uploaders.futures;
      ghost var launched, asked, taken;
      ok', m', idle, launched, asked, taken := Turn(env, end, uploaders, m0, m, ok);
      TurnMoves(env, m0, m, m', chunks, uploaders.chunks, futures, uploaders.futures, ok, ok', h, end, failedAt,
                launched, asked, taken);
      h', failedAt' := Extended(h, end, launched, asked, taken), if ok then end else failedAt;
    }

    /** The main loop. It ends when nothing is in flight or the run flag is down. */
    method UploadAll(env: Env, m0: seq<Chunk>)
      returns (m: seq<Chunk>, ok: bool, fatal: bool, end: nat, ghost h: History, ghost failedAt: nat)
      requires InOrder(m0, |m0|)
      modifies this`log
      ensures end == |h.taken| && end <= env.stopAt && end <= env.crashAt && Ran(env, m0, m, ok, h, failedAt)
      ensures !ok ==> fatal == env.fatal(failedAt)
      ensures AddsEntries(u, Destinations(m0), old(log), log) && (end == 0 ==> log == old(log))
      ensures AlwaysAnswers(env) && Ready(Unsized(m0), Runners()) ==> AllHaveUrls(h.launched)
    {
      m, ok, fatal, end, h, failedAt := m0, true, false, 0, NO_HISTORY, 0;
      var uploaders := new ChunkUploaders(m0, maxRunners, maxOpenedFiles);
      LoopStarts(env, m0);
      while end < env.stopAt && end != env.crashAt
        invariant fresh(uploaders) && uploaders.maxRunners == Runners()
        invariant IsAt(env, m0, m, uploaders.chunks, uploaders.futures, ok, h, end, end, failedAt)
        invariant WithUrls(env, m0, ok, uploaders.chunks, uploaders.futures, h)
        invariant end <= env.stopAt && end <= env.crashAt && (!ok ==> fatal == env.fatal(failedAt))
        invariant AddsEntries(u, Destinations(m0), old(log), log) && (end == 0 ==> log == old(log))
        decreases env.stopAt - end
      {
        var idle, stillOk;
        stillOk, m, idle, h, failedAt := Advance(env, uploaders, m0, m, ok, end, h, failedAt);
        if ok && !stillOk {
          ok, fatal := false, env.fatal(end);
        }
        if idle {
          LoopEnds(env, m0, m, uploaders.chunks, uploaders.futures, ok, h, end, end + 1, failedAt);
          return;
        }
        end := end + 1;
      }
      LoopEnds(env, m0, m, uploaders.chunks, uploaders.futures, ok, h, end, end, failedAt);
    }

    /** Removes the saved files, the blueprint first. */
    method Cleanup(fault: CleanupFault) returns (ok: bool)
      modifies this`blueprint, this`log
      ensures ok <==> fault.Cleaned?
      ensures ok ==> blueprint == None && log == []
      ensures !ok ==> log == old(log) && (blueprint == None || blueprint == old(blueprint))
    {
      if fault.NothingRemoved? {
        return false;
      }
      blueprint := None;
      if fault.OnlyBlueprintRemoved? {
        return false;
      }
      log := [];
      ok := true;
    }

    /** How a run that got its manifest ends, and whether it sent it. */
    ghost predicate IsOutcome(env: Env, outcome: Outcome, sent: bool, h: History) {
      var end := |h.taken|;
      var fine := NoTrouble(u, env, h, end + 1);
      && (outcome.Crashed? <==> end == env.crashAt)
      && (outcome.Interrupted? <==> end != env.crashAt && end >= env.stopAt && fine)
      && (sent <==> RanFreely(env, end) && fine && env.manifestAccepted)
      && (outcome.Sent? <==> sent && env.cleanup.Cleaned?)
    }

    /** The history of a run that found `found`: it uploads the chunks not found
        with a size, under slots it was granted, and waits for all it launched. */
    ghost predicate IsHistory(env: Env, found: seq<Chunk>, h: History) {
      var end, todo := |h.taken|, |Unsized(Applied(plan, found))|;
      && end <= |h.launched| <= todo && end <= env.stopAt && end <= env.crashAt
      && (forall c :: c in h.taken ==> c in h.launched) && (forall c :: c in h.launched ==> c.index < |plan|)
      && (forall t :: t in h.asked ==> t <= end && IsAsk(Unsized(Applied(plan, found)), Runners(), h.asked[t]))
      && (NoUrls(found) ==> AllGranted(env, h.launched))
      && (AlwaysAnswers(env) && NoUrls(found) ==> AllHaveUrls(h.launched))
      && (RanFreely(env, end) ==> |h.launched| == end)
      && (RanFreely(env, end) && NoTrouble(u, env, h, end + 1) && Runners() > 0 ==> end == todo)
    }

    /** Every chunk sent that has an object is one found, or has the key under
        which its object was uploaded. */
    ghost predicate HasKeys(found: seq<Chunk>, h: History, manifest: seq<Chunk>) {
      forall k :: 0 <= k < |manifest| && manifest[k].size > 0 ==>
        LastEntry(found, k) == Some(manifest[k]) || IsFromUpload(u, h.taken, k, manifest[k])
    }

    lemma LaunchedAreGranted(env: Env, m0: seq<Chunk>, h: History)
      requires AllGranted(env, m0) && forall c :: c in h.launched ==> Comes(env, m0, h.asked, c)
      ensures AllGranted(env, h.launched)
    {
      forall c | c in h.launched && c.url.Some?
        ensures GrantedBy(env, c)
      {
        if c !in m0 {
          var t :| t in h.asked && GrantedAt(env, t, Some(h.asked[t]), c);
          assert env.serve(t, h.asked[t]).Some?;
        }
      }
    }

    /** The manifest that a run starts with after it found `found`. */
    ghost predicate IsStart(env: Env, found: seq<Chunk>, m0: seq<Chunk>) {
      && StartsAs(plan, found, m0) && (m0 == Applied(plan, found) || (found == [] && IsUnfinished(m0)))
      && (NoUrls(found) ==> AllGranted(env, m0))
    }

    lemma ToUploadCount(env: Env, found: seq<Chunk>, m0: seq<Chunk>)
      requires IsStart(env, found, m0)
      ensures |Unsized(m0)| == |Unsized(Applied(plan, found))|
    {
      if m0 != Applied(plan, found) {
        AllToUpload(m0);
        NothingApplied(plan);
      }
    }

    lemma SameAsk(env: Env, found: seq<Chunk>, m0: seq<Chunk>, request: seq<nat>)
      requires IsStart(env, found, m0) && IsAsk(Unsized(m0), Runners(), request)
      ensures IsAsk(Unsized(Applied(plan, found)), Runners(), request)
    {
      if m0 != Applied(plan, found) {
        AllToUpload(m0);
        NothingApplied(plan);
        StartInOrder(plan, found, m0);
        SameIndexesAsk(m0, Applied(plan, found), Runners(), request);
      }
    }

    lemma RanIsHistory(env: Env, found: seq<Chunk>, m0: seq<Chunk>, m: seq<Chunk>, ok: bool, h: History, failedAt: nat)
      requires Ran(env, m0, m, ok, h, failedAt) && |h.taken| <= env.stopAt && |h.taken| <= env.crashAt
      requires |Unsized(m0)| == |Unsized(Applied(plan, found))| && |m0| == |plan|
      requires forall t :: t in h.asked ==> IsAsk(Unsized(Applied(plan, found)), Runners(), h.asked[t])
      requires NoUrls(found) ==> AllGranted(env, h.launched)
      requires AlwaysAnswers(env) && NoUrls(found) ==> AllHaveUrls(h.launched)
      ensures IsHistory(env, found, h)
    {
    }

    lemma RanHasKeys(env: Env, found: seq<Chunk>, m0: seq<Chunk>, m: seq<Chunk>, ok: bool, h: History, failedAt: nat)
      requires Ran(env, m0, m, ok, h, failedAt) && StartsAs(plan, found, m0)
      ensures HasKeys(found, h, m)
    {
      forall k | 0 <= k < |m| && m[k].size > 0
        ensures LastEntry(found, k) == Some(m[k]) || IsFromUpload(u, h.taken, k, m[k])
      {
        assert m[k] == m0[k] || IsFromUpload(u, h.taken, k, m[k]);
      }
    }

    lemma NothingToUpload(env: Env, m0: seq<Chunk>, m: seq<Chunk>, ok: bool, h: History, failedAt: nat)
      requires Ran(env, m0, m, ok, h, failedAt) && (Unsized(m0) == [] || Runners() == 0)
      ensures m == m0
    {
      assert h.taken == [];
      assert forall k :: 0 <= k < |m0| ==> m[k] == m0[k];
    }

    /** Nothing outside makes a run fail that found `found`. */
    ghost predicate IsGood(env: Env, found: seq<Chunk>) {
      && Runners() > 0 && AllGoesWell(env, |plan|)
      && (forall k :: 0 <= k < |plan| ==> Body(u, plan[k]).Some?)
      && NoUrls(found) && LogFits(u, plan, found)
    }

    lemma LaunchedArePublished(found: seq<Chunk>, m0: seq<Chunk>, c: Chunk)
      requires StartsAs(plan, found, m0) && LogFits(u, plan, found) && IsTodo(m0, c) && c.url.Some?
      requires forall k :: 0 <= k < |plan| ==> Body(u, plan[k]).Some?
      ensures Published(u, c).Some?
    {
      var k := c.index;
      assert LastEntry(found, k).Some? ==> Fits(u, plan, k, LastEntry(found, k).value);
      assert c.destinations == plan[k];
    }

    lemma GoodIsFine(env: Env, found: seq<Chunk>, m0: seq<Chunk>, m: seq<Chunk>, ok: bool, h: History, failedAt: nat)
      requires Ran(env, m0, m, ok, h, failedAt) && StartsAs(plan, found, m0) && IsGood(env, found)
      requires AllHaveUrls(h.launched)
      ensures ok && |h.taken| <= |plan|
    {
      UnsizedCount(m0);
      if !ok && TakenAt(h, failedAt).Some? {
        var c := h.taken[failedAt];
        assert c in h.launched && IsTodo(m0, c);
        LaunchedArePublished(found, m0, c);
      }
    }

    /** What follows the main loop. */
    method Conclude(env: Env, ok: bool, fatal: bool, end: nat, m: seq<Chunk>)
      returns (outcome: Outcome, manifest: Option<seq<Chunk>>)
      modifies this`blueprint, this`log
      ensures outcome == Verdict(env, ok, end)
      ensures manifest == if RanFreely(env, end) && ok && env.manifestAccepted then Some(m) else None
      ensures var cleans := manifest.Some? || (end != env.crashAt && !ok && fatal);
              if cleans && env.cleanup.Cleaned? then blueprint == None && log == []
              else log == old(log) && (blueprint == old(blueprint) || (cleans && blueprint == None))
    {
      manifest := None;
      if end == env.crashAt {
        return Crashed, None;
      }
      if !ok {
        if fatal {
          var _ := Cleanup(env.cleanup);
        }
        return Errored, None;
      }
      if end >= env.stopAt {
        return Interrupted, None;
      }
      if !env.manifestAccepted {
        return Errored, None;
      }
      manifest := Some(m);
      var cleaned := Cleanup(env.cleanup);
      outcome := if cleaned then Sent else Errored;
    }

    function Verdict(env: Env, ok: bool, end: nat): Outcome {
      if end == env.crashAt then Crashed
      else if !ok then Errored
      else if end >= env.stopAt then Interrupted
      else if env.manifestAccepted && env.cleanup.Cleaned? then Sent
      else Errored
    }

    /** What the main loop and its end mean for a run that found `found`. */
    lemma RunPromises(env: Env, found: seq<Chunk>, m0: seq<Chunk>, m: seq<Chunk>, ok: bool, h: History, failedAt: nat)
      requires Ran(env, m0, m, ok, h, failedAt) && |h.taken| <= env.stopAt && |h.taken| <= env.crashAt
      requires IsStart(env, found, m0)
      requires AlwaysAnswers(env) && NoUrls(found) ==> AllHaveUrls(h.launched)
      ensures IsHistory(env, found, h) && HasKeys(found, h, m)
      ensures RanFreely(env, |h.taken|) && ok && Runners() > 0 ==>
                (AllUploaded(u, plan, m) <==> LogFits(u, plan, found))
      ensures Unsized(Applied(plan, found)) == [] || Runners() == 0 ==> m == m0
    {
      ToUploadCount(env, found, m0);
      if NoUrls(found) {
        LaunchedAreGranted(env, m0, h);
      }
      forall t | t in h.asked
        ensures IsAsk(Unsized(Applied(plan, found)), Runners(), h.asked[t])
      {
        SameAsk(env, found, m0, h.asked[t]);
      }
      RanIsHistory(env, found, m0, m, ok, h, failedAt);
      RanHasKeys(env, found, m0, m, ok, h, failedAt);
      if RanFreely(env, |h.taken|) && ok && Runners() > 0 {
        UploadedIffLogFits(u, plan, found, m0, m);
      }
      if Unsized(Applied(plan, found)) == [] || Runners() == 0 {
        NothingToUpload(env, m0, m, ok, h, failedAt);
      }
    }

    /** The main loop of a run that found `found`. */
    method UploadFound(env: Env, m0: seq<Chunk>, ghost found: seq<Chunk>)
      returns (m: seq<Chunk>, ok: bool, fatal: bool, end: nat, ghost h: History, ghost failedAt: nat)
      requires IsStart(env, found, m0)
      requires AlwaysAnswers(env) && NoUrls(found) ==> Ready(Unsized(m0), maxRunners)
      modifies this`log
      ensures end == |h.taken| && IsHistory(env, found, h) && |m| == |plan| && HasKeys(found, h, m)
      ensures ok <==> NoTrouble(u, env, h, end + 1)
      ensures !ok ==> FirstTrouble(u, env, h, failedAt) && fatal == env.fatal(failedAt)
      ensures RanFreely(env, end) && ok && Runners() > 0 ==> (AllUploaded(u, plan, m) <==> LogFits(u, plan, found))
      ensures Unsized(Applied(plan, found)) == [] || Runners() == 0 ==> m == m0
      ensures old(log) <= log && (end == 0 ==> log == old(log))
      ensures LogFits(u, plan, found) ==> AddsEntries(u, plan, old(log), log)
      ensures IsGood(env, found) ==> ok && RanFreely(env, end)
    {
      StartInOrder(plan, found, m0);
      ReadyForFewer(Unsized(m0), maxRunners, Runners());
      m, ok, fatal, end, h, failedAt := UploadAll(env, m0);
      RunPromises(env, found, m0, m, ok, h, failedAt);
      if LogFits(u, plan, found) {
        FittingEntries(u, plan, found, m0, old(log), log);
      }
      if IsGood(env, found) {
        GoodIsFine(env, found, m0, m, ok, h, failedAt);
      }
    }

    /** One run. `manifest` is what was sent to the server, if anything was. With
        a runner it has every chunk uploaded if and only if the log found fits.
        Each outcome has its cause, and a good environment leaves only one. */
    method Run(env: Env) returns (outcome: Outcome, manifest: Option<seq<Chunk>>, ghost h: History, ghost failedAt: nat)
      requires Resumes(env) ==> blueprint == Some(Blank(plan))
      modifies this`blueprint, this`log
      ensures !old(Starts(env)) ==> outcome.Errored? && manifest == None && h == NO_HISTORY && log == old(log)
      ensures old(Starts(env)) ==>
                IsOutcome(env, outcome, manifest.Some?, h) && IsHistory(env, old(Found(env)), h)
      ensures old(Starts(env)) && IsGood(env, old(Found(env))) ==> outcome.Sent? && AllUploaded(u, plan, manifest.value)
      ensures manifest.Some? ==> |manifest.value| == |plan| && HasKeys(old(Found(env)), h, manifest.value)
      ensures manifest.Some? && Runners() > 0 ==>
                (AllUploaded(u, plan, manifest.value) <==> LogFits(u, plan, old(Found(env))))
      ensures manifest.Some? && Runners() == 0 && !old(Resumes(env)) ==> IsUnfinished(manifest.value)
      ensures outcome.Sent? ==> blueprint == None && log == []
      ensures old(Starts(env)) && |h.taken| != env.crashAt && !NoTrouble(u, env, h, |h.taken| + 1) ==>
                && FirstTrouble(u, env, h, failedAt)
                && (env.fatal(failedAt) && env.cleanup.Cleaned? ==> blueprint == None && log == [])
                && (!env.fatal(failedAt) ==> blueprint == Some(Blank(plan)) && old(log) <= log)
      ensures log == [] || old(log) <= log
      ensures LogFits(u, plan, old(Found(env))) ==> log == [] || AddsEntries(u, plan, old(log), log)
      ensures blueprint in {None, old(blueprint), Some(Blank(plan))}
      ensures blueprint != None && blueprint != old(blueprint) ==> !old(Resumes(env))
      ensures old(Resumes(env)) && !InRange(old(log), |plan|) ==> blueprint == old(blueprint)
      ensures CrashesAtOnce(env) && !old(Resumes(env)) ==> blueprint == Some(Blank(plan)) && log == old(log)
      ensures manifest.Some? && old(Resumes(env)) && Unsized(Applied(plan, old(log))) == [] ==>
                manifest == Some(Applied(plan, old(log)))
    {
      manifest, h, failedAt := None, NO_HISTORY, 0;
      ghost var found := Found(env);
      var m0 := Start(env);
      if m0.None? {
        return Errored, None, NO_HISTORY, 0;
      }
      var m, ok, fatal, end;
      m, ok, fatal, end, h, failedAt := UploadFound(env, m0.value, found);
      outcome, manifest := Conclude(env, ok, fatal, end, m);
    }

    ghost predicate CrashesAtOnce(env: Env) {
      env.serve(0, LastIndexes(Blank(plan), maxRunners)).Some? && env.blueprintSaved && env.crashAt == 0
    }
  }

  /** A manifest at the start of a run that found `log`: the entries it found,
      and for the other chunks their destinations. */
  ghost predicate StartsAs(plan: seq<seq<FileLocation>>, log: seq<Chunk>, m0: seq<Chunk>) {
    && |m0| == |plan|
    && forall k :: 0 <= k < |plan| ==>
         match LastEntry(log, k)
         case Some(c) => m0[k] == c
         case None => m0[k].index == k && m0[k].size == 0 && m0[k].destinations == plan[k]
  }

  lemma AppliedStarts(plan: seq<seq<FileLocation>>, log: seq<Chunk>)
    ensures StartsAs(plan, log, Applied(plan, log))
    ensures NoUrls(log) ==> forall k :: 0 <= k < |plan| ==> Applied(plan, log)[k].url.None?
  {
  }

  lemma AppliedInOrder(plan: seq<seq<FileLocation>>, log: seq<Chunk>)
    ensures InOrder(Applied(plan, log), |plan|)
  {
  }

  lemma StartInOrder(plan: seq<seq<FileLocation>>, log: seq<Chunk>, m0: seq<Chunk>)
    requires StartsAs(plan, log, m0)
    ensures InOrder(m0, |m0|)
  {
    forall k | 0 <= k < |m0|
      ensures m0[k].index == k
    {
      assert match LastEntry(log, k) case Some(c) => m0[k] == c case None => m0[k].index == k;
    }
  }

  ghost predicate IsUnfinished(manifest: seq<Chunk>) {
    forall k :: 0 <= k < |manifest| ==> manifest[k].size == 0 && manifest[k].checksum == []
  }

  lemma ReadyForFewer(chunks: seq<Chunk>, room: nat, less: nat)
    requires less <= room
    ensures Ready(chunks, room) ==> Ready(chunks, less)
  {
  }

  lemma BlankWithSlots(plan: seq<seq<FileLocation>>, slots: seq<Slot>)
    ensures StartsAs(plan, [], Assigned(Blank(plan), slots)) && IsUnfinished(Assigned(Blank(plan), slots))
  {
  }

  lemma BlankGranted(env: Env, plan: seq<seq<FileLocation>>, request: seq<nat>, reply: seq<Slot>)
    requires env.serve(0, request) == Some(reply)
    ensures AllGranted(env, Assigned(Blank(plan), reply))
  {
    AssignedAreGranted(Blank(plan), reply);
    forall c | c in Assigned(Blank(plan), reply) && c.url.Some?
      ensures GrantedBy(env, c)
    {
      assert c !in Blank(plan);
      assert env.serve(0, request).Some?;
    }
  }

  lemma {:induction false} LastUnsized(m: seq<Chunk>)
    requires forall k :: 0 <= k < |m| ==> m[k].url.None?
    ensures Unsized(m) == [] || Unsized(m)[|Unsized(m)| - 1].url.None?
  {
    UnsizedAre(m);
    if Unsized(m) != [] {
      assert Unsized(m)[|Unsized(m)| - 1] in Unsized(m);
    }
  }

  lemma {:induction false} UnsizedCount(m: seq<Chunk>)
    ensures |Unsized(m)| <= |m|
  {
    if m != [] {
      UnsizedCount(m[..|m| - 1]);
    }
  }

  lemma {:induction false} AllUnsized(m: seq<Chunk>)
    requires forall k :: 0 <= k < |m| ==> m[k].size == 0
    ensures Unsized(m) == m
  {
    if m != [] {
      var n := |m| - 1;
      AllUnsized(m[..n]);
      assert m == m[..n] + [m[n]];
    }
  }

  lemma AllToUpload(m: seq<Chunk>)
    requires IsUnfinished(m)
    ensures Unsized(m) == m
  {
    AllUnsized(m);
  }

  lemma NothingApplied(plan: seq<seq<FileLocation>>)
    ensures Unsized(Applied(plan, [])) == Applied(plan, []) && InOrder(Applied(plan, []), |plan|)
  {
    AppliedInOrder(plan, []);
    assert IsUnfinished(Applied(plan, []));
    AllToUpload(Applied(plan, []));
  }

  // ---- what a run leaves and what it sends --------------------------------

  /** When everything is done, every chunk is uploaded if and only if, for each
      chunk, the last entry found is absent or one of this upload. */
  lemma UploadedIffLogFits(u: Upload, plan: seq<seq<FileLocation>>, log: seq<Chunk>, m0: seq<Chunk>, m: seq<Chunk>)
    requires StartsAs(plan, log, m0) && AllDone(u, m0, m)
    ensures AllUploaded(u, plan, m) <==> LogFits(u, plan, log)
  {
    forall k | 0 <= k < |plan|
      ensures IsUploaded(u, k, plan[k], m[k]) <==>
                (LastEntry(log, k).Some? ==> Fits(u, plan, k, LastEntry(log, k).value))
    {
      assert IsDone(u, m0, k, m[k]);
    }
  }

  /** What is logged over a fitting log fits as well. */
  lemma FittingEntries(u: Upload, plan: seq<seq<FileLocation>>, found: seq<Chunk>, m0: seq<Chunk>,
                       log: seq<Chunk>, later: seq<Chunk>)
    requires StartsAs(plan, found, m0) && LogFits(u, plan, found) && AddsEntries(u, Destinations(m0), log, later)
    ensures AddsEntries(u, plan, log, later)
  {
    forall j | |log| <= j < |later|
      ensures IsEntry(u, plan, later[j])
    {
      var k := later[j].index;
      assert IsEntry(u, Destinations(m0), later[j]);
      assert LastEntry(found, k).Some? ==> Fits(u, plan, k, LastEntry(found, k).value);
    }
  }

  /** New entries only repair a log: a chunk that is uploaded again fits. */
  lemma {:induction false} EntriesRepair(u: Upload, plan: seq<seq<FileLocation>>, log: seq<Chunk>, later: seq<Chunk>,
                                         k: nat)
    requires AddsEntries(u, plan, log, later) && k < |plan|
    ensures LastEntry(later, k) == LastEntry(log, k)
            || (LastEntry(later, k).Some? && Fits(u, plan, k, LastEntry(later, k).value))
    decreases |later|
  {
    if |later| == |log| {
      assert later == log;
    } else {
      EntriesRepair(u, plan, log, later[..|later| - 1], k);
    }
  }

  /** A new upload that nothing interferes with sends every chunk uploaded. */
  method FreshUploadIsSent(env: Env, u: Upload, plan: seq<seq<FileLocation>>, maxRunners: nat, maxOpenedFiles: nat)
    returns (outcome: Outcome, manifest: Option<seq<Chunk>>)
    requires maxRunners > 0 && maxOpenedFiles > 0 && AllGoesWell(env, |plan|)
    requires forall k :: 0 <= k < |plan| ==> Body(u, plan[k]).Some?
    ensures outcome.Sent? && manifest.Some? && AllUploaded(u, plan, manifest.value)
  {
    var uploader := new Uploader(u, plan, maxRunners, maxOpenedFiles, None, []);
    ghost var h, failedAt;
    outcome, manifest, h, failedAt := uploader.Run(env);
  }

  /** An upload of other data than the log left, that crashes at once. */
  method CrashOnStaleLog(env: Env, u: Upload, plan: seq<seq<FileLocation>>, log: seq<Chunk>, maxRunners: nat,
                         maxOpenedFiles: nat) returns (uploader: Uploader)
    requires env.serve(0, LastIndexes(Blank(plan), maxRunners)).Some? && env.blueprintSaved && env.crashAt == 0
    ensures fresh(uploader) && uploader.u == u && uploader.plan == plan && uploader.maxRunners == maxRunners
    ensures uploader.maxOpenedFiles == maxOpenedFiles
    ensures uploader.blueprint == Some(Blank(plan)) && uploader.log == log
  {
    uploader := new Uploader(u, plan, maxRunners, maxOpenedFiles, None, log);
    var _, _, _, _ := uploader.Run(env);
  }

  /** An upload that starts over on a log of other data, crashes, and resumes,
      sends what that log says: it logs every chunk, so none is uploaded. */
  method StaleLogIsSent(u: Upload, plan: seq<seq<FileLocation>>, log: seq<Chunk>, maxRunners: nat, maxOpenedFiles: nat)
    returns (manifest: Option<seq<Chunk>>)
    requires InRange(log, |plan|) && maxRunners > 0 && maxOpenedFiles > 0
    requires forall k :: 0 <= k < |plan| ==> LastEntry(log, k).Some? && LastEntry(log, k).value.size > 0
    ensures manifest == Some(Applied(plan, log))
    ensures AllUploaded(u, plan, manifest.value) <==> LogFits(u, plan, log)
  {
    var env := Env(true, true, (t, request) => Some([]), true, 1, 0, t => 0, t => true, t => false, t => Saved,
      true, Cleaned);
    var uploader := CrashOnStaleLog(env, u, plan, log, maxRunners, maxOpenedFiles);
    NothingUnsized(Applied(plan, log));
    ghost var h, failedAt;
    var outcome;
    outcome, manifest, h, failedAt := uploader.Run(env.(crashAt := 1));
    NothingWentWrong(u, env.(crashAt := 1), h);
  }

  lemma NothingWentWrong(u: Upload, env: Env, h: History)
    requires h.taken == [] && forall t, request :: env.serve(t, request).Some?
    ensures NoTrouble(u, env, h, 1)
  {
    forall t | 0 <= t < 1
      ensures !TroubleAt(u, env, h, t)
    {
    }
  }

  lemma {:induction false} NothingUnsized(m: seq<Chunk>)
    requires forall k :: 0 <= k < |m| ==> m[k].size > 0
    ensures Unsized(m) == []
  {
    if m != [] {
      NothingUnsized(m[..|m| - 1]);
    }
  }

  /** With no runner, or no file that may be opened, the manifest that a new
      upload sends is the one it started with: no chunk in it is uploaded. */
  lemma UnfinishedIsNotUploaded(u: Upload, plan: seq<seq<FileLocation>>, m: seq<Chunk>, k: nat)
    requires IsUnfinished(m) && |m| == |plan| && k < |plan|
    requires forall x: Bytes :: u.hash(x) != []
    ensures !IsUploaded(u, k, plan[k], m[k])
  {
  }
}
