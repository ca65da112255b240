/** Where the messages come from that a fetch hands to a session: from the list of the user of that session,
    in every run, with misrouting logins or without. */
module Origins {
  import opened Prelude
  import opened Crypto
  import opened Messages
  import opened Sessions
  import opened Redis
  import opened Nodes
  import opened NodeInvariant
  import opened Systems
  import opened Wire
  import opened Safety

  /** Executing the batch `b`, Redis has answered one of its range commands with `x`: with all that the list
      held at that moment. */
  ghost predicate Answered(r: Store, b: Batch, x: Reply) {
    x.LRangeReply? && exists i :: 0 <= i < |b| && AnsweredAt(r, b, x, i)
  }

  predicate AnsweredAt(r: Store, b: Batch, x: Reply, i: nat)
    requires i < |b| && x.LRangeReply?
  {
    b[i] == LRange(x.key, x.tag) && x.parcels == ListAt(ExecBatch(r, b[..i]).lists, x.key)
  }

  lemma {:induction false} ExecBatchAnswers(r: Store, b: Batch, x: Reply)
    requires x in ExecBatch(r, b).inbox && x.LRangeReply?
    ensures x in r.inbox || Answered(r, b, x)
    decreases |b|
  {
    if b != [] {
      var r1 := Exec(r, b[0]);
      ExecBatchAnswers(r1, b[1..], x);
      if Answered(r1, b[1..], x) {
        var i :| 0 <= i < |b[1..]| && AnsweredAt(r1, b[1..], x, i);
        AnsweredLater(r, b, x, i);
      } else if x !in r.inbox {
        NewAnswer(r, b[0], x);
        assert b[..0] == [];
        assert AnsweredAt(r, b, x, 0);
      }
    }
  }

  lemma NewAnswer(r: Store, c: Cmd, x: Reply)
    requires x in Exec(r, c).inbox && x !in r.inbox && x.LRangeReply?
    ensures c == LRange(x.key, x.tag) && x.parcels == ListAt(r.lists, x.key)
  {
  }

  lemma AnsweredLater(r: Store, b: Batch, x: Reply, i: nat)
    requires x.LRangeReply? && i + 1 < |b| && AnsweredAt(Exec(r, b[0]), b[1..], x, i)
    ensures AnsweredAt(r, b, x, i + 1)
  {
    assert b[..i + 1][1..] == b[1..][..i];
  }

  /** Only a batch of this node makes Redis send it a range. */
  lemma NextAnswers(cfg: Config, s: System, e: Event, x: Reply)
    requires Enabled(s, e) && x in Next(cfg, s, e).store.inbox && x.LRangeReply? && x !in s.store.inbox
    ensures e.RedisExecutes? && s.node.cmds != [] && Answered(s.store, s.node.cmds[0], x)
  {
    hide OnRead, OnReadError, OnWritten, OnRun, ShutdownAll, OnReply, ExecBatch, StoreBatch, Answered;
    match e
    case RedisExecutes => ExecBatchAnswers(s.store, s.node.cmds[0], x);
    case ForeignStore(user, msgs) =>
      var b := StoreBatch(cfg, ParcelsFor(user, msgs), user);
      ExecBatchAnswers(s.store, b, x);
      NoAnswer(cfg, s.store, ParcelsFor(user, msgs), user, x);
    case ForeignFetch(user) => if x !in s.store.inbox { NewAnswer(s.store, Del(ListKey(cfg, user)), x); }
    case ForeignPublish(channel, payload) => if x !in s.store.inbox { NewAnswer(s.store, Publish(channel, payload), x); }
    case _ =>
  }

  lemma NoAnswer(cfg: Config, r: Store, ps: seq<Parcel>, to: string, x: Reply)
    requires ps != []
    ensures !Answered(r, StoreBatch(cfg, ps, to), x)
  {
    hide ExecBatch;
  }

  /** Every unhandled range was answered by an earlier execution. */
  lemma {:induction false} RunAnswers(cfg: Config, ss: seq<System>, es: seq<Event>, k: nat, x: Reply)
    requires ConfigOk(cfg) && IsRun(cfg, ss, es) && k < |ss| && x in ss[k].store.inbox && x.LRangeReply?
    ensures exists j | 0 <= j < k :: AnsweredIn(ss, es, j, x)
  {
    hide Next, Enabled, Answered;
    if k > 0 {
      if x in ss[k - 1].store.inbox {
        RunAnswers(cfg, ss, es, k - 1, x);
      } else {
        NextAnswers(cfg, ss[k - 1], es[k - 1], x);
        assert AnsweredIn(ss, es, k - 1, x);
      }
    }
  }

  ghost predicate AnsweredIn(ss: seq<System>, es: seq<Event>, j: nat, x: Reply)
    requires j < |es| && |ss| == |es| + 1
  {
    es[j].RedisExecutes? && ss[j].node.cmds != [] && Answered(ss[j].store, ss[j].node.cmds[0], x)
  }

  /** A range that is tagged with a user id is of the list of that user. */
  lemma AnsweredKey(cfg: Config, r: Store, b: Batch, x: Reply)
    requires ConfigOk(cfg) && BatchOk(cfg, b) && Answered(r, b, x) && IsDigest(x.tag)
    ensures x.key == ListKey(cfg, x.tag)
  {
    hide Paired, FetchesWhatItWatches, IsDigest, AnsweredAt;
    var i :| 0 <= i < |b| && AnsweredAt(r, b, x, i);
    RangeKey(cfg, r, b, x, i);
  }

  lemma RangeKey(cfg: Config, r: Store, b: Batch, x: Reply, i: nat)
    requires ConfigOk(cfg) && x.LRangeReply? && i < |b| && AnsweredAt(r, b, x, i) && CmdOk(cfg, b[i]) && IsDigest(x.tag)
    ensures x.key == ListKey(cfg, x.tag)
  {
    hide IsDigest;
    var user := Rest(cfg.chatPrefix, x.key);
    Reprefix(cfg.chatPrefix, x.key);
    PrefixedIsNoDigest(cfg.chatPrefix, user);
  }

  /** In every run: what on_lrange hands to the session of `u` is, in order, all that the list of `u` held
      when Redis executed an earlier range of the node, and no other session is touched. */
  lemma HandedFromOwnList(cfg: Config, ss: seq<System>, es: seq<Event>, k: nat, x: Reply)
    requires ConfigOk(cfg) && IsRun(cfg, ss, es) && k < |es| && es[k] == RedisReplies
    requires ss[k].store.inbox != [] && ss[k].store.inbox[0] == x && x.LRangeReply? && x.tag in ss[k].node.index
    ensures var n, n1, i := ss[k].node, ss[k + 1].node, ss[k].node.index[x.tag];
      && i < |n.sessions| && n.sessions[i].pubHash == x.tag
      && n1.sessions == n.sessions[i := SendAll(n.sessions[i], x.parcels)]
      && Grows(n.sessions[i], n1.sessions[i], x.parcels)
      && x.key == ListKey(cfg, x.tag)
      && exists j | 0 <= j < k :: AnsweredIn(ss, es, j, x)
  {
    hide QueueOk, StoreOk, Correlated, SlotOk, SendAll, Answered, Grows;
    RunOk(cfg, ss, es, k);
    RunAnswers(cfg, ss, es, k, x);
    FetchReplyOk(cfg, ss[k]);
    assert EntryOk(ss[k].node, x.tag) && SessionOk(ss[k].node.sessions[ss[k].node.index[x.tag]]);
    var j :| 0 <= j < k && AnsweredIn(ss, es, j, x);
    RunOk(cfg, ss, es, j);
    AnsweredInKey(cfg, ss, es, j, x);
    assert ss[k + 1] == Next(cfg, ss[k], es[k]);
    SendAllInOrder(ss[k].node.sessions[ss[k].node.index[x.tag]], x.parcels);
  }

  lemma AnsweredInKey(cfg: Config, ss: seq<System>, es: seq<Event>, j: nat, x: Reply)
    requires j < |es| && |ss| == |es| + 1 && ConfigOk(cfg) && SystemOk(cfg, ss[j])
    requires AnsweredIn(ss, es, j, x) && IsDigest(x.tag)
    ensures x.key == ListKey(cfg, x.tag)
  {
    hide NodeOk, StoreOk, Correlated, BatchOk, Answered, IsDigest;
    assert ss[j].node.cmds[0] in ss[j].node.cmds;
    AnsweredKey(cfg, ss[j].store, ss[j].node.cmds[0], x);
  }
}
