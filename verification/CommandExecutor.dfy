/**
 Commands executed against the store, the text of their responses, and runs of
 requests arriving as frame payloads from any number of connections.
 */
module CommandExecutor {
  import opened Basics
  import opened StoreModel
  import opened KeyValueStore
  import opened CommandParser
  import FrameCodec

  const OK := Ascii("+OK")
  const PONG := Ascii("+PONG")
  const BYE := Ascii("+BYE")
  const NIL := Ascii("$nil")
  const UNKNOWN_COMMAND := Ascii("-ERR unknown command")
  const STATS_PREFIX := Ascii("+keys=")
  const HELP_TEXT := Ascii("Supported commands:\n") + Ascii("  PING\n") + Ascii("  SET <key> <value>\n")
                     + Ascii("  GET <key>\n") + Ascii("  DEL <key>\n") + Ascii("  EXPIRE <key> <seconds>\n")
                     + Ascii("  TTL <key>\n") + Ascii("  STATS\n") + Ascii("  HELP\n") + Ascii("  QUIT")

  function ToString(n: int): bytes {
    if n < 0 then Ascii("-") + Decimal(-n) else Decimal(n)
  }

  /** The store request behind a command, for the commands that have one. */
  function RequestOf(cmd: Command): (q: Option<Request>)
    ensures q.Some? ==> !q.value.Sweep?
  {
    match cmd.kind
    case Set => Some(Request.Set(cmd.key, cmd.value))
    case Get => Some(Request.Get(cmd.key))
    case Del => Some(Request.Del(cmd.key))
    case Expire => Some(Request.Expire(cmd.key, cmd.seconds))
    case Ttl => Some(Request.Ttl(cmd.key))
    case _ => None
  }

  function AnswerText(a: Answer): bytes {
    match a
    case Done => OK
    case Value(value) => if value.Some? then Ascii("$") + value.value else NIL
    case Flag(ok) => if ok then OK else NIL
    case Seconds(n) => Ascii("$") + ToString(n)
    case Swept(_, _, _, _) => []
  }

  /** The text of the commands that only look at the store, if at that. */
  function PlainText(kind: CommandType, persistent: nat, expiring: nat): bytes {
    match kind
    case Ping => PONG
    case Quit => BYE
    case Help => HELP_TEXT
    case Stats =>
      STATS_PREFIX + Decimal(persistent + expiring) + Ascii(",persistent=") + Decimal(persistent)
        + Ascii(",expiring=") + Decimal(expiring)
    case _ => UNKNOWN_COMMAND
  }

  ghost predicate Executes(s: Store, now: int, cmd: Command, response: bytes, s': Store) {
    var q := RequestOf(cmd);
    if q.Some? then
      Responds(s, now, q.value, AnswerTo(s, now, q.value), s') && response == AnswerText(AnswerTo(s, now, q.value))
    else s' == s && response == PlainText(cmd.kind, |PersistentKeys(s.data)|, |ExpiringKeys(s.data)|)
  }

  lemma ResponseExecutes(s: Store, now: int, cmd: Command, a: Answer, s': Store)
    requires RequestOf(cmd).Some? && Responds(s, now, RequestOf(cmd).value, a, s')
    ensures Executes(s, now, cmd, AnswerText(a), s')
  {
  }

  lemma SetResponds(s: Store, now: int, key: bytes, value: bytes)
    ensures Responds(s, now, Request.Set(key, value), Done, AfterSet(s, key, value))
  {
  }

  lemma PlainExecutes(s: Store, now: int, cmd: Command)
    requires RequestOf(cmd).None?
    ensures Executes(s, now, cmd, PlainText(cmd.kind, |PersistentKeys(s.data)|, |ExpiringKeys(s.data)|), s)
  {
  }

  /** The text "$nil" stands for absence, but a stored value can spell it too; nothing else can. */
  lemma NilMeansAbsentOrTheValueNil(s: Store, now: int, cmd: Command, response: bytes, s': Store)
    requires cmd.kind == CommandType.Get && Executes(s, now, cmd, response, s')
    ensures response == NIL <==> !IsLive(s.data, cmd.key, now) || s.data[cmd.key].value == Ascii("nil")
  {
    assert NIL == Ascii("$") + Ascii("nil");
    if IsLive(s.data, cmd.key, now) {
      assert response[1..] == s.data[cmd.key].value;
    }
  }

  // ------------------------------------------------------------ replies, byte for byte

  /** The reply to `TTL` of a key whose deadline is `due` nanoseconds away: that many seconds, rounded up. */
  ghost predicate IsCountdown(response: bytes, due: int) {
    && response != [] && response[0] as int == '$' as int
    && exists n: nat :: IsPrinted(response[1..], n) && (n - 1) * 1_000_000_000 < due <= n * 1_000_000_000
  }

  /** The reply to `STATS`, before the metrics. */
  ghost predicate IsCensus(response: bytes, persistent: nat, expiring: nat) {
    exists a, b, c ::
      && IsPrinted(a, persistent + expiring) && IsPrinted(b, persistent) && IsPrinted(c, expiring)
      && response == Ascii("+keys=") + a + Ascii(",persistent=") + b + Ascii(",expiring=") + c
  }

  /** The reply to any other command whose key, if it takes one, is `found` with this value and expires in `due`. */
  ghost predicate IsReply(cmd: Command, found: Option<bytes>, due: Option<int>, response: bytes) {
    match cmd.kind
    case Ping => response == Ascii("+PONG")
    case Set => response == Ascii("+OK")
    case Get => response == if found.Some? then Ascii("$") + found.value else Ascii("$nil")
    case Del => response == if found.Some? then Ascii("+OK") else Ascii("$nil")
    case Expire => response == if found.Some? && cmd.seconds > 0 then Ascii("+OK") else Ascii("$nil")
    case Ttl =>
      if found.None? then response == Ascii("$-2")
      else if due.None? then response == Ascii("$-1")
      else IsCountdown(response, due.value)
    case Quit => response == Ascii("+BYE")
    case Help =>
      response == Ascii("Supported commands:\n" + "  PING\n" + "  SET <key> <value>\n" + "  GET <key>\n"
                        + "  DEL <key>\n" + "  EXPIRE <key> <seconds>\n" + "  TTL <key>\n" + "  STATS\n"
                        + "  HELP\n" + "  QUIT")
    case Stats => false
    case Unknown => response == Ascii("-ERR unknown command")
  }

  function Found(s: Store, key: bytes, now: int): Option<bytes> {
    if key in s.data && (s.data[key].expireAt.Some? ==> now < s.data[key].expireAt.value)
    then Some(s.data[key].value)
    else None
  }

  function TimeLeft(s: Store, key: bytes, now: int): Option<int> {
    if Found(s, key, now).Some? && s.data[key].expireAt.Some? then Some(s.data[key].expireAt.value - now) else None
  }

  lemma AsciiOfSum(a: string, b: string)
    ensures Ascii(a + b) == Ascii(a) + Ascii(b)
  {
  }

  lemma HelpIsReply(cmd: Command, found: Option<bytes>, due: Option<int>)
    requires cmd.kind == CommandType.Help
    ensures IsReply(cmd, found, due, HELP_TEXT)
  {
    hide Ascii;
    var t1 := "Supported commands:\n" + "  PING\n";
    var t2 := t1 + "  SET <key> <value>\n";
    var t3 := t2 + "  GET <key>\n";
    var t4 := t3 + "  DEL <key>\n";
    var t5 := t4 + "  EXPIRE <key> <seconds>\n";
    var t6 := t5 + "  TTL <key>\n";
    var t7 := t6 + "  STATS\n";
    var t8 := t7 + "  HELP\n";
    AsciiOfSum("Supported commands:\n", "  PING\n");
    AsciiOfSum(t1, "  SET <key> <value>\n");
    AsciiOfSum(t2, "  GET <key>\n");
    AsciiOfSum(t3, "  DEL <key>\n");
    AsciiOfSum(t4, "  EXPIRE <key> <seconds>\n");
    AsciiOfSum(t5, "  TTL <key>\n");
    AsciiOfSum(t6, "  STATS\n");
    AsciiOfSum(t7, "  HELP\n");
    AsciiOfSum(t8, "  QUIT");
  }

  lemma SecondsAreCountdown(due: int)
    requires due > 0
    ensures IsCountdown(AnswerText(Seconds(CeilSeconds(due))), due)
  {
    hide IsPrinted;
    var n := CeilSeconds(due);
    DecimalIsPrinted(n);
    assert AnswerText(Seconds(n))[1..] == Decimal(n);
  }

  lemma SmallNegatives()
    ensures AnswerText(Seconds(-2)) == Ascii("$-2") && AnswerText(Seconds(-1)) == Ascii("$-1")
  {
  }

  /** What every command but `STATS` answers, in the bytes the client reads. */
  lemma ExecutedIsReply(s: Store, now: int, cmd: Command, response: bytes, s': Store)
    requires cmd.kind != CommandType.Stats && Executes(s, now, cmd, response, s')
    ensures IsReply(cmd, Found(s, cmd.key, now), TimeLeft(s, cmd.key, now), response)
  {
    hide After, ToString, IsCountdown, CeilSeconds;
    if cmd.kind == CommandType.Help {
      HelpIsReply(cmd, Found(s, cmd.key, now), TimeLeft(s, cmd.key, now));
    } else if cmd.kind == CommandType.Ttl {
      SmallNegatives();
      if Found(s, cmd.key, now).Some? && s.data[cmd.key].expireAt.Some? {
        SecondsAreCountdown(s.data[cmd.key].expireAt.value - now);
      }
    }
  }

  lemma StatsIsCensus(persistent: nat, expiring: nat)
    ensures IsCensus(PlainText(CommandType.Stats, persistent, expiring), persistent, expiring)
  {
    hide IsPrinted, Ascii, Decimal;
    DecimalIsPrinted(persistent + expiring);
    DecimalIsPrinted(persistent);
    DecimalIsPrinted(expiring);
  }

  method Execute(store: KVStore, cmd: Command, now: int) returns (response: bytes)
    requires store.Valid()
    modifies store
    ensures store.Valid()
    ensures Executes(old(store.State()), now, cmd, response, store.State())
    ensures cmd.kind != CommandType.Stats ==>
      var s := old(store.State());
      IsReply(cmd, Found(s, cmd.key, now), TimeLeft(s, cmd.key, now), response)
  {
    hide Coupled, PersistentKeys, ExpiringKeys, Executes, AnswerTo, After, IsReply;
    ghost var before := store.State();
    match cmd.kind {
      case Set =>
        store.Set(cmd.key, cmd.value);
        SetResponds(before, now, cmd.key, cmd.value);
        ResponseExecutes(before, now, cmd, Done, store.State());
        response := OK;
      case Get =>
        var value := store.Get(cmd.key, now);
        ResponseExecutes(before, now, cmd, Value(value), store.State());
        response := if value.Some? then Ascii("$") + value.value else NIL;
      case Del =>
        var deleted := store.Del(cmd.key, now);
        ResponseExecutes(before, now, cmd, Flag(deleted), store.State());
        response := if deleted then OK else NIL;
      case Expire =>
        var accepted := store.Expire(cmd.key, cmd.seconds, now);
        ResponseExecutes(before, now, cmd, Flag(accepted), store.State());
        response := if accepted then OK else NIL;
      case Ttl =>
        var seconds := store.Ttl(cmd.key, now);
        ResponseExecutes(before, now, cmd, Seconds(seconds), store.State());
        response := Ascii("$") + ToString(seconds);
      case Stats =>
        var keys, persistent, expiring := store.Stats();
        PlainExecutes(before, now, cmd);
        response := PlainText(Stats, persistent, expiring);
      case _ =>
        PlainExecutes(before, now, cmd);
        response := PlainText(cmd.kind, 0, 0);
    }
    if cmd.kind != CommandType.Stats {
      ExecutedIsReply(before, now, cmd, response, store.State());
    }
  }

  // ------------------------------------------------------------ sizes

  const MAX_VALUE_SIZE := FrameCodec.MAX_FRAME_SIZE - 6

  /** Values came in one frame with the rest of their `SET`, and leases were granted in `int` seconds. */
  ghost predicate Bounded(s: Store, now: int) {
    forall k :: k in s.data ==>
      && |s.data[k].value| <= MAX_VALUE_SIZE
      && (s.data[k].expireAt.Some? ==> s.data[k].expireAt.value <= now + INT_MAX * NANOS_PER_SECOND)
  }

  lemma BoundedLater(s: Store, now: int, later: int)
    requires Bounded(s, now) && now <= later
    ensures Bounded(s, later)
  {
  }

  lemma AfterIsBounded(s: Store, now: int, q: Request)
    requires Bounded(s, now) && !q.Sweep?
    requires q.Set? ==> |q.value| <= MAX_VALUE_SIZE
    requires q.Expire? ==> q.seconds <= INT_MAX
    ensures Bounded(After(s, now, q), now)
  {
  }

  /** Ten digits are enough for any `int`. */
  lemma DecimalIsShort(n: nat)
    requires n <= INT_MAX
    ensures |Decimal(n)| <= 10
  {
    var m := n / 100000;
    assert m / 100000 == 0;
    FiveDigits(n);
    FiveDigits(m);
  }

  lemma FiveDigits(n: nat)
    ensures |Decimal(n)| <= 5 + (if n / 100000 == 0 then 0 else |Decimal(n / 100000)|)
  {
    var a := n / 10;
    var b := a / 10;
    var c := b / 10;
    var d := c / 10;
    assert d / 10 == n / 100000;
    assert |Decimal(d)| <= 1 + (if d / 10 == 0 then 0 else |Decimal(d / 10)|);
    assert |Decimal(c)| <= 1 + (if d == 0 then 0 else |Decimal(d)|);
    assert |Decimal(b)| <= 1 + (if c == 0 then 0 else |Decimal(c)|);
    assert |Decimal(a)| <= 1 + (if b == 0 then 0 else |Decimal(b)|);
  }

  lemma TtlFitsInt(s: Store, now: int, key: bytes)
    requires Bounded(s, now)
    ensures -2 <= AnswerTo(s, now, Request.Ttl(key)).seconds <= INT_MAX
  {
  }

  /**
   Executing the command of any payload that fitted a frame keeps the store's values small enough, and
   the response fits a frame, so encoding it cannot fail; only the length of `STATS` text is not bounded here.
   */
  lemma ResponseFitsAFrame(s: Store, now: int, payload: bytes, response: bytes, s': Store)
    requires |payload| <= FrameCodec.MAX_FRAME_SIZE && Bounded(s, now)
    requires Executes(s, now, Parse(payload), response, s')
    ensures Bounded(s', now)
    ensures Parse(payload).kind != Stats ==> FrameCodec.Encode(response).Success? && |response| <= MAX_VALUE_SIZE + 1
  {
    hide Parse, Coupled, Bounded, After;
    var cmd := Parse(payload);
    if cmd.kind == CommandType.Set {
      SetValueIsShorterThanItsLine(payload);
    } else if cmd.kind == CommandType.Expire {
      ExpireSecondsFit(payload);
    } else if cmd.kind == CommandType.Ttl {
      TtlFitsInt(s, now, cmd.key);
      TtlTextIsShort(AnswerTo(s, now, Request.Ttl(cmd.key)).seconds);
    } else if cmd.kind == CommandType.Get {
      GetTextIsShort(s, now, cmd.key);
    }
    if RequestOf(cmd).Some? {
      AfterIsBounded(s, now, RequestOf(cmd).value);
    }
  }

  lemma TtlTextIsShort(seconds: int)
    requires -2 <= seconds <= INT_MAX
    ensures |AnswerText(Seconds(seconds))| <= 12
  {
    DecimalIsShort(if seconds < 0 then -seconds else seconds);
  }

  lemma GetTextIsShort(s: Store, now: int, key: bytes)
    requires Bounded(s, now)
    ensures |AnswerText(AnswerTo(s, now, Request.Get(key)))| <= MAX_VALUE_SIZE + 1
  {
  }
}
