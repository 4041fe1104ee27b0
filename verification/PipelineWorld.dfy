/** All ranks together, joined by MPI. */
module PipelineWorld {
  import opened Types
  import opened PipelineModel

  /** `wire[k]` is the payload MPI has taken from the root of the k-th broadcast. */
  datatype World = World(ranks: seq<Rank>, wire: map<nat, seq<Byte>>)

  datatype Action =
    | ATake(r: nat)
    | APost(r: nat)
    | AEndPosting(r: nat)
    | AAck(r: nat)
    | AEndDrain(r: nat)
    | AReap(r: nat, i: nat)
    | AWriter(r: nat, w: nat)
    | ACapture(r: nat, k: nat)
    | AComplete(r: nat, k: nat)

  /**
    MPI may take the root's payload at any moment after the root posted, and a request may complete
    at any moment after that: nothing here waits for the other ranks.
  */
  predicate Enabled(cfg: Config, w: World, a: Action)
    requires cfg.Valid() && |w.ranks| == cfg.world
  {
    && a.r < cfg.world
    && var s := w.ranks[a.r];
    && ShapeOk(cfg, s)
    && match a
       case ATake(_) => CanTake(cfg, s)
       case APost(_) => CanPost(cfg, s) && ReadOk(cfg, s)
       case AEndPosting(_) => CanEndPosting(cfg, s)
       case AAck(_) => CanAck(s)
       case AEndDrain(_) => s.pc.Draining? && s.acks == []
       case AReap(_, i) => CanReap(cfg, s, i)
       case AWriter(_, v) => CanWrite(cfg, s, v)
       case ACapture(_, k) =>
         && k < |s.posts| && s.posts[k].root == a.r && k !in w.wire
         && s.posts[k].slot < |s.bufs| && s.bufs[s.posts[k].slot].Some?
         && s.posts[k].off + s.posts[k].len <= |s.bufs[s.posts[k].slot].value|
       case AComplete(_, k) => k in w.wire && CanComplete(s, k, w.wire[k])
  }

  function Apply(cfg: Config, w: World, a: Action): (w': World)
    requires cfg.Valid() && |w.ranks| == cfg.world && Enabled(cfg, w, a)
    ensures |w'.ranks| == cfg.world
  {
    var s := w.ranks[a.r];
    match a
    case ATake(r) => w.(ranks := w.ranks[r := Take(cfg, r, s)])
    case APost(r) => w.(ranks := w.ranks[r := PostChunk(cfg, s)])
    case AEndPosting(r) => w.(ranks := w.ranks[r := EndPosting(s)])
    case AAck(r) => w.(ranks := w.ranks[r := TakeAck(cfg, s)])
    case AEndDrain(r) => w.(ranks := w.ranks[r := EndDrain(cfg, s)])
    case AReap(r, i) => w.(ranks := w.ranks[r := Reap(cfg, s, i)])
    case AWriter(r, v) => w.(ranks := w.ranks[r := WriterStep(cfg, s, v)])
    case ACapture(r, k) =>
      var p := s.posts[k];
      w.(wire := w.wire[k := s.bufs[p.slot].value[p.off..p.off + p.len]])
    case AComplete(r, k) => w.(ranks := w.ranks[r := Complete(r, s, k, w.wire[k])])
  }
}
