/** The broker of the current API (broker.go): one connection, one management channel, the
    disconnect listeners that teardown notifies, and the automatic-timestamp switch. Each
    operation returns, besides its Go result, what it asked of the transport and of the
    listeners, in order; their answers are parameters. */
module Brokers {
  import opened Errors
  import opened Transport
  import Exchanges
  import Queues

  /** A dependent notified on teardown, compared by identity. Its `onDisconnect` answers with
      an optional error, given to `Close` as a parameter. */
  datatype Listener = Listener(id: nat)

  datatype Step = OnDisconnect(listener: Listener) | Request(call: Call)

  datatype ExchangeOptions = ExchangeOptions(name: string, kind: string, durable: bool)

  datatype QueueOptions = QueueOptions(
    name: string, durable: bool, exclusive: bool, consumeExclusive: bool, consumerName: string)

  // ---------------------------------------------------------------------------------------
  // Listener removal

  /** The list `unregisterDisconnectListener` leaves behind. It walks the list by index and
      deletes each entry equal to `l`, but moves past the entry that slid into the deleted
      slot without comparing it: an entry right after a removed one always stays. */
  function AfterUnregister(ls: seq<Listener>, l: Listener): (r: seq<Listener>)
    ensures |r| <= |ls|
    ensures l in ls ==> |r| < |ls|
  {
    if ls == [] then []
    else if ls[0] != l then [ls[0]] + AfterUnregister(ls[1..], l)
    else if |ls| == 1 then []
    else [ls[1]] + AfterUnregister(ls[2..], l)
  }

  /** The entries of `ls` other than `l`, in their order. */
  function Without(ls: seq<Listener>, l: Listener): (r: seq<Listener>)
    ensures l !in r
  {
    if ls == [] then []
    else if ls[0] == l then Without(ls[1..], l)
    else [ls[0]] + Without(ls[1..], l)
  }

  /** Unregistering keeps every other listener, in its original relative order. */
  lemma {:induction false} UnregisterKeepsOthers(ls: seq<Listener>, l: Listener)
    ensures Without(AfterUnregister(ls, l), l) == Without(ls, l)
  {
    if ls == [] {
    } else if ls[0] != l {
      UnregisterKeepsOthers(ls[1..], l);
      assert ([ls[0]] + AfterUnregister(ls[1..], l))[1..] == AfterUnregister(ls[1..], l);
    } else if |ls| > 1 {
      UnregisterKeepsOthers(ls[2..], l);
      assert ([ls[1]] + AfterUnregister(ls[2..], l))[1..] == AfterUnregister(ls[2..], l);
      assert ls[1..][1..] == ls[2..];
    }
  }

  /** Unregistering a listener that is not registered changes nothing. */
  lemma {:induction false} UnregisterAbsent(ls: seq<Listener>, l: Listener)
    requires l !in ls
    ensures AfterUnregister(ls, l) == ls
    ensures Without(ls, l) == ls
  {
    if ls != [] {
      UnregisterAbsent(ls[1..], l);
    }
  }

  /** For a listener registered at most once, unregistering removes exactly its occurrence:
      the list shrinks by one when it was there and is unchanged when it was not. */
  lemma {:induction false} UnregisterUnique(ls: seq<Listener>, l: Listener)
    requires multiset(ls)[l] <= 1
    ensures AfterUnregister(ls, l) == Without(ls, l)
    ensures l !in AfterUnregister(ls, l)
    ensures |AfterUnregister(ls, l)| == |ls| - multiset(ls)[l]
  {
    if ls != [] {
      assert ls == [ls[0]] + ls[1..];
      if ls[0] != l {
        UnregisterUnique(ls[1..], l);
      } else {
        assert multiset(ls[1..])[l] == 0;
        UnregisterAbsent(ls[1..], l);
        if |ls| > 1 {
          assert ls[1..] == [ls[1]] + ls[2..];
          UnregisterAbsent(ls[2..], l);
        }
      }
    }
  }

  /** The skipped comparison: of two adjacent registrations, the second survives. */
  lemma UnregisterKeepsSecondOfPair(rest: seq<Listener>, l: Listener)
    ensures AfterUnregister([l, l] + rest, l) == [l] + AfterUnregister(rest, l)
  {
    assert ([l, l] + rest)[2..] == rest;
  }

  /** One pass of the removal loop that finds no match at index `i`. */
  lemma UnregisterStepKeep(ls: seq<Listener>, i: nat, l: Listener)
    requires i < |ls| && ls[i] != l
    ensures ls[..i] + AfterUnregister(ls[i..], l) == ls[..i + 1] + AfterUnregister(ls[i + 1..], l)
  {
    assert ls[i..][1..] == ls[i + 1..];
    assert ls[..i + 1] == ls[..i] + [ls[i]];
  }

  /** One pass of the removal loop that deletes index `i`: the next entry takes its slot and the
      index moves past it. */
  lemma UnregisterStepDelete(ls: seq<Listener>, i: nat, l: Listener)
    requires i < |ls| && ls[i] == l
    ensures var after := ls[..i] + ls[i + 1..];
      (i + 1 <= |after| ==>
         ls[..i] + AfterUnregister(ls[i..], l) == after[..i + 1] + AfterUnregister(after[i + 1..], l))
      && (i + 1 == |after| + 1 ==> ls[..i] + AfterUnregister(ls[i..], l) == after)
  {
    var after := ls[..i] + ls[i + 1..];
    if i + 1 < |ls| {
      assert ls[i..][1..][1..] == ls[i + 2..];
      assert after[..i + 1] == ls[..i] + [ls[i + 1]];
      assert after[i + 1..] == ls[i + 2..];
    } else {
      assert ls[i..] == [l];
      assert after == ls[..i];
    }
  }

  // ---------------------------------------------------------------------------------------
  // Teardown

  /** The errors among the answers, in order. */
  function Failures(replies: seq<Option<Error>>): seq<Error>
  {
    if replies == [] then []
    else Failures(replies[..|replies| - 1])
         + (if replies[|replies| - 1].Some? then [replies[|replies| - 1].value] else [])
  }

  /** No failures are collected exactly when every answer was a success. */
  lemma {:induction false} FailuresEmptyIff(replies: seq<Option<Error>>)
    ensures Failures(replies) == [] <==> forall i :: 0 <= i < |replies| ==> replies[i] == None
  {
    if replies != [] {
      var front := replies[..|replies| - 1];
      FailuresEmptyIff(front);
      assert forall i :: 0 <= i < |front| ==> front[i] == replies[i];
    }
  }

  /** The failure of a teardown step, wrapped with the step's prefix. */
  function StepFailure(prefix: string, reply: Option<Error>): seq<Error>
  {
    if reply.Some? then [Wrap(prefix, reply.value)] else []
  }

  /** Every error a teardown meets, in the order of the steps: the listeners' own errors as they
      are, then the management channel's and the connection's, each with its prefix. */
  function CloseErrors(listenerReplies: seq<Option<Error>>, chanReply: Option<Error>,
                       connReply: Option<Error>): seq<Error>
  {
    Failures(listenerReplies) + StepFailure("close main channel: ", chanReply)
    + StepFailure("close broker connection: ", connReply)
  }

  function Texts(errs: seq<Error>): (texts: seq<string>)
    ensures |texts| == |errs| && forall i :: 0 <= i < |errs| ==> texts[i] == Text(errs[i])
  {
    seq(|errs|, i requires 0 <= i < |errs| => Text(errs[i]))
  }

  const Separator := ", "

  /** The parts separated by `", "`, with no separator before the first or after the last. */
  function Join(parts: seq<string>): string
  {
    if parts == [] then ""
    else if |parts| == 1 then parts[0]
    else Join(parts[..|parts| - 1]) + Separator + parts[|parts| - 1]
  }

  /** A join begins with its first part: nothing is written before it. */
  lemma {:induction false} JoinStartsWithFirst(parts: seq<string>)
    requires parts != []
    ensures parts[0] <= Join(parts)
  {
    if |parts| > 1 {
      JoinStartsWithFirst(parts[..|parts| - 1]);
    }
  }

  /** A join's length is that of its parts plus one separator between each pair. */
  lemma {:induction false} JoinLength(parts: seq<string>)
    requires parts != []
    ensures |Join(parts)| == TotalLength(parts) + |Separator| * (|parts| - 1)
  {
    if |parts| > 1 {
      JoinLength(parts[..|parts| - 1]);
    }
  }

  function TotalLength(parts: seq<string>): nat
  {
    if parts == [] then 0 else TotalLength(parts[..|parts| - 1]) + |parts[|parts| - 1]|
  }

  // ---------------------------------------------------------------------------------------
  // The formatting step of `Close` as written

  /** The flag characters `fmt` accepts right after a `%`. */
  predicate IsFlag(c: char)
  {
    c == '#' || c == '0' || c == '+' || c == '-' || c == ' '
  }

  /** The text after the flags at the front of `s`. */
  function SkipFlags(s: string): (r: string)
    ensures |r| <= |s|
  {
    if s != [] && IsFlag(s[0]) then SkipFlags(s[1..]) else s
  }

  /** Go's `parsenum` over the digits at the front of `s`, `num` being the value read so far:
      the text after the digits, or `None` when a further digit arrives once the value is past
      one million, where `fmt` jumps to the end of the format. */
  function SkipNumber(s: string, num: nat): (r: Option<string>)
    ensures r.Some? ==> |r.value| <= |s|
  {
    if s != [] && '0' <= s[0] <= '9' then
      if num > 1000000 then None
      else SkipNumber(s[1..], num * 10 + (s[0] as int - '0' as int))
    else Some(s)
  }

  /** How `fmt` reads the text after a `%` when it has no operands. */
  datatype Scan =
    | Verb(rest: string)  // flags, width and precision skipped; the verb heads `rest`, if any
    | Abandon             // a number too long: the rest of the format is dropped
    | Unmodelled          // an argument index `[n]` or a `*` width or precision

  /** Flags, then a width, then `.` and a precision when a character follows the `.`. */
  function ScanDirective(s: string): (r: Scan)
    ensures r.Verb? ==> |r.rest| <= |s|
  {
    var afterFlags := SkipFlags(s);
    if afterFlags != [] && (afterFlags[0] == '[' || afterFlags[0] == '*') then Unmodelled
    else match SkipNumber(afterFlags, 0)
      case None => Abandon
      case Some(afterWidth) =>
        if |afterWidth| >= 2 && afterWidth[0] == '.' then
          if afterWidth[1] == '[' || afterWidth[1] == '*' then Unmodelled
          else match SkipNumber(afterWidth[1..], 0)
            case None => Abandon
            case Some(afterPrecision) =>
              if afterPrecision != [] && afterPrecision[0] == '[' then Unmodelled
              else Verb(afterPrecision)
        else if afterWidth != [] && afterWidth[0] == '[' then Unmodelled
        else Verb(afterWidth)
  }

  /** Formats `fmt` reads without argument indexes or `*` widths and precisions. */
  predicate IsSimpleFormat(f: string)
    decreases |f|
  {
    if f == [] then true
    else if f[0] != '%' then IsSimpleFormat(f[1..])
    else match ScanDirective(f[1..])
      case Unmodelled => false
      case Abandon => true
      case Verb(rest) => rest == [] || IsSimpleFormat(rest[1..])
  }

  /** `fmt.Errorf(f).Error()` for a format with no operands. Text outside directives is copied;
      a `%` verb prints one `%`; any other verb prints `%!` and the verb, then `(MISSING)`; a
      directive that reaches the end of the format, or whose number is too long, prints
      `%!(NOVERB)` and ends the output. Flags, width and precision are not printed. */
  function FormatNoOperands(f: string): string
    requires IsSimpleFormat(f)
    decreases |f|
  {
    if f == [] then ""
    else if f[0] != '%' then [f[0]] + FormatNoOperands(f[1..])
    else match ScanDirective(f[1..])
      case Abandon => "%!(NOVERB)"
      case Verb(rest) =>
        if rest == [] then "%!(NOVERB)"
        else if rest[0] == '%' then "%" + FormatNoOperands(rest[1..])
        else "%!" + [rest[0]] + "(MISSING)" + FormatNoOperands(rest[1..])
  }

  /** Formatting without operands leaves a text without `%` as it is. */
  lemma {:induction false} FormatNoOperandsPlain(f: string)
    requires '%' !in f
    ensures IsSimpleFormat(f) && FormatNoOperands(f) == f
  {
    if f != [] {
      assert f == [f[0]] + f[1..];
      FormatNoOperandsPlain(f[1..]);
    }
  }

  /** Text without `%` in front of a format passes through unchanged. */
  lemma {:induction false} FormatNoOperandsPrefix(plain: string, f: string)
    requires '%' !in plain && IsSimpleFormat(f)
    ensures IsSimpleFormat(plain + f)
    ensures FormatNoOperands(plain + f) == plain + FormatNoOperands(f)
  {
    if plain == [] {
      assert plain + f == f;
    } else {
      var whole := plain + f;
      assert whole[0] == plain[0] && plain[0] != '%';
      assert whole[1..] == plain[1..] + f;
      FormatNoOperandsPrefix(plain[1..], f);
    }
  }

  /** The error `Close` returns as written (broker.go:122): the joined messages are used as a
      format string. */
  function CloseErrorAsWritten(errs: seq<Error>): (r: Error)
    requires errs != [] && IsSimpleFormat(Join(Texts(errs)))
    ensures Unwrap(r) == None
  {
    Plain(FormatNoOperands(Join(Texts(errs))))
  }

  /** As written, a teardown whose messages contain no `%` reports them unaltered. */
  lemma CloseAsWrittenWithoutPercent(errs: seq<Error>)
    requires errs != [] && '%' !in Join(Texts(errs))
    ensures IsSimpleFormat(Join(Texts(errs)))
    ensures Text(CloseErrorAsWritten(errs)) == Join(Texts(errs))
  {
    FormatNoOperandsPlain(Join(Texts(errs)));
  }

  /** As written, a listener error ending in `%` reaches the caller with "!(NOVERB)"
      appended: "disk 100%" becomes "disk 100%!(NOVERB)". */
  lemma CloseAsWrittenAltersPercent(front: string)
    requires '%' !in front
    ensures IsSimpleFormat(front + "%")
    ensures Text(CloseErrorAsWritten([Plain(front + "%")])) == front + "%!(NOVERB)"
  {
    assert IsSimpleFormat("%") && FormatNoOperands("%") == "%!(NOVERB)";
    FormatNoOperandsPrefix(front, "%");
    SingleCloseErrorAsWritten(front + "%");
  }

  /** As written, a `%` followed by a space reads the space as a flag and the next
      character as a verb with no operand: a listener error "disk 50% full" reaches the
      caller as "disk 50%!f(MISSING)ull". */
  lemma CloseAsWrittenReadsFlag(front: string, verb: char, back: string)
    requires '%' !in front && '%' !in back
    requires !IsFlag(verb) && !('0' <= verb <= '9') && verb !in ".[*%"
    ensures IsSimpleFormat(front + "% " + [verb] + back)
    ensures Text(CloseErrorAsWritten([Plain(front + "% " + [verb] + back)]))
         == front + "%!" + [verb] + "(MISSING)" + back
  {
    var directive := "% " + [verb] + back;
    assert front + "% " + [verb] + back == front + directive;
    FlagDirective(verb, back);
    FormatNoOperandsPrefix(front, directive);
    SingleCloseErrorAsWritten(front + directive);
  }

  /** `% ` followed by a verb is a directive with a space flag. */
  lemma FlagDirective(verb: char, back: string)
    requires '%' !in back
    requires !IsFlag(verb) && !('0' <= verb <= '9') && verb !in ".[*%"
    ensures IsSimpleFormat("% " + [verb] + back)
    ensures FormatNoOperands("% " + [verb] + back) == "%!" + [verb] + "(MISSING)" + back
  {
    var directive := "% " + [verb] + back;
    var afterFlag := [verb] + back;
    assert directive[1..] == [' '] + afterFlag;
    assert SkipFlags([' '] + afterFlag) == afterFlag by {
      assert IsFlag(' ') && ([' '] + afterFlag)[1..] == afterFlag;
      assert afterFlag[0] == verb;
    }
    assert SkipNumber(afterFlag, 0) == Some(afterFlag);
    assert ScanDirective(directive[1..]) == Verb(afterFlag);
    assert afterFlag[1..] == back;
    FormatNoOperandsPlain(back);
  }

  /** As written, a teardown with one failure formats that failure's text. */
  lemma SingleCloseErrorAsWritten(text: string)
    requires IsSimpleFormat(text)
    ensures Texts([Plain(text)]) == [text] && Join([text]) == text
    ensures CloseErrorAsWritten([Plain(text)]) == Plain(FormatNoOperands(text))
  {
    assert Texts([Plain(text)]) == [text];
  }

  // ---------------------------------------------------------------------------------------
  // The broker

  class Broker {
    var connection: Option<Conn>
    var mainChan: Option<Chan>
    var disconnectListeners: seq<Listener>
    var autoTimestamp: bool

    /** A zero `Broker`, as `Open` in api.go declares it before calling `open`. */
    constructor ()
      ensures connection == None && mainChan == None && disconnectListeners == []
      ensures !autoTimestamp
    {
      connection := None;
      mainChan := None;
      disconnectListeners := [];
      autoTimestamp := false;
    }

    /** `open`: dials, opens the management channel on the new connection, records the
        automatic-timestamp switch and asks to be told when the connection closes. Each step
        runs only if the previous one succeeded; a failed step leaves in its field whatever
        handle the transport returned. */
    method Open(url: string, autoTimestamp: bool, dialResult: Returned<Conn>,
                channelResult: Returned<Chan>)
      returns (err: Option<Error>, calls: seq<Call>)
      modifies this`connection, this`mainChan, this`autoTimestamp
      ensures connection == dialResult.Handle()
      ensures dialResult.Failed? ==>
                err == Some(Wrap("dial: ", dialResult.error)) && calls == [Dial(url)]
                && mainChan == old(mainChan) && this.autoTimestamp == old(this.autoTimestamp)
      ensures dialResult.Success? ==> mainChan == channelResult.Handle()
      ensures dialResult.Success? && channelResult.Failed? ==>
                err == Some(Wrap("open management channel: ", channelResult.error))
                && calls == [Dial(url), OpenChannel(dialResult.value)]
                && this.autoTimestamp == old(this.autoTimestamp)
      ensures dialResult.Success? && channelResult.Success? ==>
                err == None && this.autoTimestamp == autoTimestamp
                && calls == [Dial(url), OpenChannel(dialResult.value), NotifyClose(dialResult.value)]
      ensures disconnectListeners == old(disconnectListeners)
    {
      calls := [Dial(url)];
      connection := dialResult.Handle();
      if dialResult.Failed? {
        return Some(Wrap("dial: ", dialResult.error)), calls;
      }
      var conn := dialResult.value;
      calls := calls + [OpenChannel(conn)];
      mainChan := channelResult.Handle();
      if channelResult.Failed? {
        return Some(Wrap("open management channel: ", channelResult.error)), calls;
      }
      this.autoTimestamp := autoTimestamp;
      calls := calls + [NotifyClose(conn)];
      err := None;
    }

    /** `unregisterDisconnectListener`: the in-place deletion loop. */
    method UnregisterDisconnectListener(listener: Listener)
      modifies this`disconnectListeners
      ensures disconnectListeners == AfterUnregister(old(disconnectListeners), listener)
    {
      ghost var original := disconnectListeners;
      var i := 0;
      while i < |disconnectListeners|
        invariant i <= |disconnectListeners| + 1
        invariant i <= |disconnectListeners| ==>
          AfterUnregister(original, listener)
            == disconnectListeners[..i] + AfterUnregister(disconnectListeners[i..], listener)
        invariant i == |disconnectListeners| + 1 ==>
          AfterUnregister(original, listener) == disconnectListeners
        decreases |disconnectListeners| + 1 - i
      {
        if disconnectListeners[i] == listener {
          UnregisterStepDelete(disconnectListeners, i, listener);
          disconnectListeners := disconnectListeners[..i] + disconnectListeners[i + 1..];
        } else {
          UnregisterStepKeep(disconnectListeners, i, listener);
        }
        i := i + 1;
      }
    }

    /** `GetExchange`: declares the exchange on the management channel, auto-deleted exactly
        when not durable, and on success hands out a handle carrying the requested name. */
    function GetExchange(options: ExchangeOptions, reply: Option<Error>)
      : (r: Issued<Result<Exchanges.Exchange>>)
      reads this
      requires mainChan.Some?
      ensures r.call == ExchangeDeclare(mainChan.value, options.name, options.kind,
                                        options.durable, !options.durable, false, false)
      ensures r.call.autoDelete == !r.call.durable
      ensures reply == None ==>
                r.result == Ok(Exchanges.Exchange(mainChan.value, autoTimestamp, options.name))
      ensures reply.Some? ==> r.result == Err(Wrap("declare exchange: ", reply.value))
    {
      var call := ExchangeDeclare(mainChan.value, options.name, options.kind, options.durable,
                                  !options.durable, false, false);
      match reply
      case None => Issued(call, Ok(Exchanges.Exchange(mainChan.value, autoTimestamp, options.name)))
      case Some(e) => Issued(call, Err(Wrap("declare exchange: ", e)))
    }

    /** `GetQueue`: declares the queue on the management channel, auto-deleted exactly when not
        durable, and on success creates a handle named as the server reports, not as requested. */
    method GetQueue(options: QueueOptions, reply: Result<ServerQueue>)
      returns (r: Result<Queues.Queue>, call: Call)
      requires connection.Some? && mainChan.Some?
      ensures call == QueueDeclare(mainChan.value, options.name, options.durable,
                                   !options.durable, options.exclusive, false)
      ensures reply.Err? ==> r == Err(Wrap("declare queue: ", reply.error))
      ensures reply.Ok? ==>
                r.Ok? && fresh(r.value) && r.value.name == reply.value.name
                && r.value.connection == connection.value && r.value.mainChan == mainChan.value
                && r.value.consumeExclusive == options.consumeExclusive
                && r.value.consumerName == options.consumerName
                && r.value.channel == None && r.value.msgsChan == None
                && r.value.msg == None && r.value.err == None && r.value.Valid()
    {
      call := QueueDeclare(mainChan.value, options.name, options.durable, !options.durable,
                           options.exclusive, false);
      if reply.Err? {
        return Err(Wrap("declare queue: ", reply.error)), call;
      }
      var q := new Queues.Queue(connection.value, mainChan.value, reply.value.name,
                                options.consumeExclusive, options.consumerName);
      r := Ok(q);
    }

    /** The `strings.Builder` loop of `Close`: every message but the last followed by the
        separator, then the last. */
    static method JoinMessages(errs: seq<Error>) returns (out: string)
      requires errs != []
      ensures out == Join(Texts(errs))
    {
      ghost var parts := Texts(errs);
      out := "";
      var j := 0;
      while j < |errs| - 1
        invariant 0 <= j <= |errs| - 1
        invariant out + parts[j] == Join(parts[..j + 1])
      {
        out := out + Text(errs[j]) + Separator;
        assert parts[..j + 2][..j + 1] == parts[..j + 1];
        j := j + 1;
      }
      out := out + Text(errs[|errs| - 1]);
      assert parts[..|errs|] == parts;
    }

    /** `Close`: notifies every listener in list order, then closes the management channel,
        then the connection, whatever failed before. It returns nil exactly when no step failed,
        and otherwise one error whose message is every failure's message, in order, joined
        by ", ". */
    method Close(listenerReplies: seq<Option<Error>>, chanReply: Option<Error>,
                 connReply: Option<Error>)
      returns (err: Option<Error>, steps: seq<Step>)
      requires connection.Some? && mainChan.Some?
      requires |listenerReplies| == |disconnectListeners|
      ensures |steps| == |disconnectListeners| + 2
      ensures forall k :: 0 <= k < |disconnectListeners| ==>
                steps[k] == OnDisconnect(disconnectListeners[k])
      ensures steps[|disconnectListeners|] == Request(CloseChannel(mainChan.value))
      ensures steps[|disconnectListeners| + 1] == Request(CloseConnection(connection.value))
      ensures err == None <==>
                (forall k :: 0 <= k < |listenerReplies| ==> listenerReplies[k] == None)
                && chanReply == None && connReply == None
      ensures err.Some? ==>
                err.value == Plain(Join(Texts(CloseErrors(listenerReplies, chanReply, connReply))))
    {
      var errs: seq<Error> := [];
      steps := [];
      var i := 0;
      while i < |disconnectListeners|
        invariant 0 <= i <= |disconnectListeners|
        invariant errs == Failures(listenerReplies[..i])
        invariant |steps| == i
        invariant forall k :: 0 <= k < i ==> steps[k] == OnDisconnect(disconnectListeners[k])
      {
        steps := steps + [OnDisconnect(disconnectListeners[i])];
        var reply := listenerReplies[i];
        if reply.Some? {
          errs := errs + [reply.value];
        }
        assert listenerReplies[..i + 1][..i] == listenerReplies[..i];
        i := i + 1;
      }
      assert listenerReplies[..i] == listenerReplies;

      steps := steps + [Request(CloseChannel(mainChan.value))];
      if chanReply.Some? {
        errs := errs + [Wrap("close main channel: ", chanReply.value)];
      }
      steps := steps + [Request(CloseConnection(connection.value))];
      if connReply.Some? {
        errs := errs + [Wrap("close broker connection: ", connReply.value)];
      }
      assert errs == CloseErrors(listenerReplies, chanReply, connReply);
      FailuresEmptyIff(listenerReplies);

      if |errs| == 0 {
        return None, steps;
      }

      var out := JoinMessages(errs);
      err := Some(Plain(out));
    }
  }
}
