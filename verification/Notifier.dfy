/** The class notifier (src/notifier.cpp): its handlers change the token map in place, each as the step
    function in Notifications says. */
module Notifiers {
  import opened Prelude
  import opened Notifications

  class Notifier {
    const cfg: Config
    var tokens: Tokens

    constructor (cfg: Config)
      ensures this.cfg == cfg && tokens == INIT.tokens
    {
      this.cfg := cfg;
      tokens := map[];
    }

    /** `now` is the time at which the handler runs. */
    method HandleNtfMessage(now: int, m: Message)
      modifies this
      ensures tokens == OnNtfMessage(cfg, old(tokens), now, m)
    {
      if m.to.None? {
        return;
      }
      var to := m.to.value;
      if !cfg.fcmValid {
        return;
      }
      if to !in tokens {
        return;
      }
      if tokens[to].token == "" {
        return;
      }
      tokens := tokens[to := tokens[to].(msg := Some(m))];
      tokens := tokens[to := tokens[to].(deadline := now + cfg.waitInterval, waits := 0)];
      tokens := tokens[to := tokens[to].(waits := tokens[to].waits + 1)];
    }

    method HandleNtfDel(key: string)
      modifies this
      ensures tokens == OnNtfDel(old(tokens), key)
    {
      if key !in tokens {
        return;
      }
      tokens := tokens[key := tokens[key].(waits := 0)];
    }

    method HandleNtfPublish(now: int, p: Payload)
      modifies this
      ensures tokens == OnNtfPublish(cfg, old(tokens), now, p)
    {
      match p
      case Chat(m) =>
        HandleNtfMessage(now, m);
      case Token(userId, token) =>
        if userId.None? || token.None? {
          return;
        }
        if token.value == "" {
          tokens := tokens - {userId.value};
          return;
        }
        var inserted := Insert(userId.value, Fresh(token.value));
        if !inserted {
          tokens := tokens[userId.value := tokens[userId.value].(token := token.value)];
        }
      case Garbage =>
    }

    /** std::unordered_map::insert. */
    method Insert(key: string, e: Entry) returns (inserted: bool)
      modifies this
      ensures inserted <==> key !in old(tokens)
      ensures tokens == if inserted then old(tokens)[key := e] else old(tokens)
    {
      inserted := key !in tokens;
      if inserted {
        tokens := tokens[key := e];
      }
    }

    method HandleHGetAll(v: seq<string>)
      modifies this
      ensures tokens == OnHGetAll(old(tokens), v)
    {
      for i := 0 to |v| / 2
        invariant OnHGetAll(tokens, v[2 * i..]) == OnHGetAll(old(tokens), v)
      {
        assert v[2 * i..][2..] == v[2 * (i + 1)..];
        var inserted := Insert(v[2 * i], Fresh(v[2 * i + 1]));
      }
    }

    /** A handler that was not cancelled: its wait is over, and it may send a notification. */
    method HandleTimeout(user: string) returns (ntf: Option<Ntf>)
      requires user in tokens && tokens[user].waits > 0
      modifies this
      ensures tokens == OnTimeout(old(tokens), user)
      ensures ntf == Compose(cfg, user, tokens[user].token, tokens[user].msg)
      ensures tokens[user].msg.Some? ==> Carries(cfg, ntf, user, tokens[user].token, tokens[user].msg.value)
    {
      tokens := tokens[user := tokens[user].(waits := tokens[user].waits - 1)];
      var msg := tokens[user].msg;
      if msg.None? || msg.value.body.None? {
        return None;
      }
      var text := msg.value.body.value;
      if |text| > cfg.maxMsgSize {
        if cfg.maxMsgSize < 0 {
          return None;
        }
        text := text[..cfg.maxMsgSize];
      }
      if msg.value.nick.None? {
        return None;
      }
      ntf := Some(Ntf(user, tokens[user].token, msg.value.nick.value, text));
    }
  }
}
