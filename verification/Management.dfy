/** The management protocol end to end: the command line the client prints (src/client/client.c), and the server's
    framing, tokenising and dispatch (src/server/management.c). */
module Management {
  import opened Basics
  import opened Socks5
  import opened Users
  import opened Automaton
  import Proxy
  import Wire

  /** Buffers of the client and of the server. */
  const BUFFER_SIZE := 1024

  const NEWLINE: byte := 10
  const RETURN: byte := 13
  const SPACE: byte := 32
  const TAB: byte := 9

  predicate IsBlank(c: byte) {
    c == SPACE || c == TAB
  }

  // ---------------------------------------------------------------- the client

  /** Arguments separated by single spaces. */
  function Join(args: seq<Text>): seq<byte> {
    if args == [] then []
    else if |args| == 1 then args[0]
    else Join(args[..|args| - 1]) + [SPACE] + args[|args| - 1]
  }

  /** build_command: what the command buffer holds, or nothing when the command is too long. */
  method BuildCommand(args: seq<Text>) returns (command: Option<seq<byte>>)
    ensures command == if args == [] then Some(Ascii("STATS"))
                       else if |Join(args)| < BUFFER_SIZE then Some(Join(args)) else None
  {
    if args == [] {
      return Some(Ascii("STATS"));
    }
    var buffer: seq<byte> := [];
    for i := 0 to |args|
      invariant buffer == Join(args[..i]) && |buffer| < BUFFER_SIZE
    {
      assert args[..i + 1][..i] == args[..i];
      var text := (if i == 0 then [] else [SPACE]) + args[i];
      assert Join(args[..i + 1]) == buffer + text;
      if |text| >= BUFFER_SIZE - |buffer| {
        JoinGrows(args, i + 1);
        return None;
      }
      buffer := buffer + text;
    }
    assert args[..|args|] == args;
    return Some(buffer);
  }

  lemma {:induction false} JoinGrows(args: seq<Text>, i: nat)
    requires i <= |args|
    ensures |Join(args[..i])| <= |Join(args)|
    decreases |args| - i
  {
    if i == |args| {
      assert args[..i] == args;
    } else {
      assert args[..i + 1][..i] == args[..i];
      JoinGrows(args, i + 1);
    }
  }

  /** The line send_command puts on the wire for a command that fits. */
  function Line(command: seq<byte>): Option<seq<byte>> {
    if |command| + 1 >= BUFFER_SIZE then None else Some(command + [NEWLINE])
  }

  datatype Sent = Sent(n: nat) | Interrupted | SendFailed

  /** send_command: on success the whole line went out, in order; `delivered` is what the server's side can read. */
  method SendCommand(command: seq<byte>, sends: seq<Sent>) returns (ok: bool, delivered: seq<byte>)
    ensures Line(command).None? ==> !ok && delivered == []
    ensures Line(command).Some? ==> delivered <= Line(command).value && (ok <==> delivered == Line(command).value)
  {
    if |command| + 1 >= BUFFER_SIZE {
      return false, [];
    }
    var buffer := command + [NEWLINE];
    var sent, k := 0, 0;
    while sent < |buffer|
      invariant 0 <= sent <= |buffer| && 0 <= k <= |sends|
      decreases |sends| - k
    {
      if k == |sends| {
        return false, buffer[..sent];
      }
      match sends[k] {
        case Sent(n) =>
          if n == 0 {
            return false, buffer[..sent];
          }
          sent := sent + Min(n, |buffer| - sent);
        case Interrupted =>
        case SendFailed =>
          return false, buffer[..sent];
      }
      k := k + 1;
    }
    return true, buffer;
  }

  // ---------------------------------------------------------------- tokens

  function SkipBlanks(t: seq<byte>): (r: seq<byte>)
    ensures |r| <= |t| && (r != [] ==> !IsBlank(r[0]))
  {
    if t != [] && IsBlank(t[0]) then SkipBlanks(t[1..]) else t
  }

  function Word(t: seq<byte>): (r: seq<byte>)
    ensures r <= t && (t != [] && !IsBlank(t[0]) ==> r != [])
  {
    if t == [] || IsBlank(t[0]) then [] else [t[0]] + Word(t[1..])
  }

  /** The maximal runs of non-blanks of a text. */
  function Tokens(t: seq<byte>): seq<seq<byte>>
    decreases |t|
  {
    var u := SkipBlanks(t);
    if u == [] then [] else [Word(u)] + Tokens(u[|Word(u)|..])
  }

  /** The command in a buffer: what comes before a NUL, a carriage return or a newline. */
  function CommandText(b: seq<byte>): seq<byte> {
    if b == [] || b[0] == 0 || b[0] == RETURN || b[0] == NEWLINE then [] else [b[0]] + CommandText(b[1..])
  }

  /** An argument the protocol can carry. */
  predicate IsToken(t: seq<byte>) {
    t != [] && forall i | 0 <= i < |t| :: t[i] != 0 && t[i] != RETURN && t[i] != NEWLINE && !IsBlank(t[i])
  }

  lemma {:induction false} WordOf(token: seq<byte>, rest: seq<byte>)
    requires IsToken(token) && (rest == [] || IsBlank(rest[0]))
    ensures Word(token + rest) == token
  {
    var t := token + rest;
    assert t[1..] == token[1..] + rest;
    if |token| > 1 {
      WordOf(token[1..], rest);
    } else {
      assert token[1..] + rest == rest;
    }
  }

  lemma {:induction false} CommandTextOf(a: seq<byte>, b: seq<byte>)
    requires forall i | 0 <= i < |a| :: a[i] != 0 && a[i] != RETURN && a[i] != NEWLINE
    requires b != [] && b[0] == NEWLINE
    ensures CommandText(a + b) == a
  {
    if a == [] {
      assert a + b == b;
    } else {
      assert (a + b)[1..] == a[1..] + b;
      CommandTextOf(a[1..], b);
    }
  }

  /** Arguments joined from the front. */
  lemma {:induction false} JoinFront(args: seq<Text>)
    requires |args| >= 2
    ensures Join(args) == args[0] + [SPACE] + Join(args[1..])
  {
    var n := |args| - 1;
    if n == 1 {
      assert args[..1] == [args[0]] && args[1..] == [args[1]];
    } else {
      JoinFront(args[..n]);
      assert args[..n][1..] == args[1..][..n - 1];
      assert args[1..][n - 1] == args[n];
      assert Join(args[1..]) == Join(args[1..][..n - 1]) + [SPACE] + args[n];
    }
  }

  /** Tokenising what was joined gives the arguments back. */
  lemma {:induction false} TokensOfJoin(args: seq<Text>)
    requires forall i | 0 <= i < |args| :: IsToken(args[i])
    ensures Tokens(Join(args)) == args
  {
    if |args| == 1 {
      WordOf(args[0], []);
      assert args[0] + [] == args[0];
      assert Tokens(args[0][|args[0]|..]) == [];
    } else if |args| > 1 {
      JoinFront(args);
      var rest: seq<byte> := [SPACE] + Join(args[1..]);
      var t: seq<byte> := args[0] + rest;
      assert Join(args) == t;
      WordOf(args[0], rest);
      assert t[|args[0]|..] == rest;
      assert rest[1..] == Join(args[1..]);
      assert SkipBlanks(rest) == SkipBlanks(Join(args[1..]));
      TokensOfJoin(args[1..]);
      assert Tokens(rest) == Tokens(Join(args[1..]));
    }
  }

  lemma {:induction false} JoinIsClean(args: seq<Text>)
    requires forall i | 0 <= i < |args| :: IsToken(args[i])
    ensures forall i | 0 <= i < |Join(args)| :: Join(args)[i] != 0 && Join(args)[i] != RETURN && Join(args)[i] != NEWLINE
  {
    if |args| > 1 {
      JoinIsClean(args[..|args| - 1]);
    }
  }

  /** Round trip: the server reads from the client's line the arguments the client was given. */
  lemma LineCarriesTheArguments(args: seq<Text>)
    requires forall i | 0 <= i < |args| :: IsToken(args[i])
    ensures Line(Join(args)).Some? ==> Tokens(CommandText(Line(Join(args)).value)) == args
  {
    JoinIsClean(args);
    CommandTextOf(Join(args), [NEWLINE]);
    TokensOfJoin(args);
  }

  // ---------------------------------------------------------------- dispatch

  datatype Reply =
    | EmptyCommand | Stats | Listing | AddUsage | Added(result: Result, count: nat)
    | RemoveUsage | Removed(result: Result, count: nat) | Bye | Help | Unknown

  /** strcasecmp(command, name) == 0 */
  predicate Named(command: seq<byte>, name: string) {
    SameText(command, Ascii(name))
  }

  /** What a command does to the users, and the reply it gets. */
  function Dispatch(users: UserMap, tokens: seq<seq<byte>>): (UserMap, Reply) {
    if tokens == [] then (users, EmptyCommand)
    else if Named(tokens[0], "STATS") || Named(tokens[0], "METRICS") then (users, Stats)
    else if Named(tokens[0], "USERS") then (users, Listing)
    else if Named(tokens[0], "ADDUSER") then
      if |tokens| != 3 then (users, AddUsage)
      else
        var (after, result) := Adding(users, AsText(tokens[1]), AsText(tokens[2]));
        (after, Added(result, |after|))
    else if Named(tokens[0], "DELUSER") then
      if |tokens| != 2 then (users, RemoveUsage)
      else
        var (after, result) := Removing(users, AsText(tokens[1]));
        (after, Removed(result, |after|))
    else if Named(tokens[0], "QUIT") then (users, Bye)
    else if Named(tokens[0], "HELP") then (users, Help)
    else (users, Unknown)
  }

  /** A token is a C string. */
  function AsText(token: seq<byte>): Option<Text> {
    if 0 in token then None else Some(token)
  }

  // ---------------------------------------------------------------- replies

  const EQUALS: byte := 61

  /** users_result_name */
  function ResultName(result: Result): seq<byte> {
    match result
    case Ok => Ascii("ok")
    case Exists => Ascii("exists")
    case NotFound => Ascii("not_found")
    case Full => Ascii("full")
    case Invalid => Ascii("invalid")
  }

  function Field(name: seq<byte>, value: nat): seq<byte> {
    name + [EQUALS] + (Decimal(value) + [NEWLINE])
  }

  /** The counters a metrics reply reports, in order. */
  function Counters(m: Proxy.Metrics): seq<nat> {
    [m.historical, m.concurrent, m.successful, m.failed, m.upstream + m.downstream, m.upstream, m.downstream]
  }

  function CounterNames(): seq<seq<byte>> {
    [Ascii("historical_connections"), Ascii("concurrent_connections"), Ascii("successful_connections"),
     Ascii("failed_connections"), Ascii("bytes_transferred"), Ascii("bytes_client_to_target"), Ascii("bytes_target_to_client")]
  }

  function Fields(names: seq<seq<byte>>, values: seq<nat>): seq<byte>
    requires |names| == |values|
  {
    if names == [] then [] else Field(names[0], values[0]) + Fields(names[1..], values[1..])
  }

  /** format_metrics_response, before it is cut to the buffer. */
  function MetricsText(m: Proxy.Metrics): seq<byte> {
    Fields(CounterNames(), Counters(m))
  }

  /** The text of a reply, before it is cut to the buffer. */
  ghost function ReplyText(reply: Reply, m: Proxy.Metrics, slots: seq<Slot>, count: nat): seq<byte> {
    match reply
    case EmptyCommand => Ascii("error=empty_command\n")
    case Stats => MetricsText(m)
    case Listing => CountLine(count) + UserLines(slots)
    case AddUsage => Ascii("error=usage_ADDUSER_user_pass\n")
    case Added(result, n) => Ascii("adduser=") + ResultName(result) + [NEWLINE] + CountLine(n)
    case RemoveUsage => Ascii("error=usage_DELUSER_user\n")
    case Removed(result, n) => Ascii("deluser=") + ResultName(result) + [NEWLINE] + CountLine(n)
    case Bye => Ascii("ok=bye\n")
    case Help => Ascii("commands=STATS,METRICS,USERS,ADDUSER,DELUSER,HELP,QUIT\n")
    case Unknown => Ascii("error=unknown_command\n")
  }

  /** What comes before and after the first `c`. */
  function Before(t: seq<byte>, c: byte): seq<byte> {
    if t == [] || t[0] == c then [] else [t[0]] + Before(t[1..], c)
  }

  function After(t: seq<byte>, c: byte): (r: seq<byte>)
    ensures |r| <= |t| && (t != [] ==> |r| < |t|)
  {
    if t == [] then [] else if t[0] == c then t[1..] else After(t[1..], c)
  }

  /** The number that digits spell. */
  function Value(digits: seq<byte>): int {
    if digits == [] then 0 else Value(digits[..|digits| - 1]) * 10 + (digits[|digits| - 1] as int - 48)
  }

  /** The values of `name=value` lines, as a reader of the reply would take them. */
  function Values(t: seq<byte>): seq<int>
    decreases |t|
  {
    if t == [] then [] else [Value(Before(After(t, EQUALS), NEWLINE))] + Values(After(After(t, EQUALS), NEWLINE))
  }

  lemma {:induction false} Splits(a: seq<byte>, c: byte, b: seq<byte>)
    requires c !in a
    ensures Before(a + [c] + b, c) == a && After(a + [c] + b, c) == b
  {
    var t := a + [c] + b;
    if a != [] {
      Splits(a[1..], c, b);
      assert t[1..] == a[1..] + [c] + b;
    } else {
      assert t[1..] == b;
    }
  }

  lemma {:induction false} DecimalIsRead(n: nat)
    ensures Value(Decimal(n)) == n && Decimal(n) != [] && forall i | 0 <= i < |Decimal(n)| :: 48 <= Decimal(n)[i] <= 57
  {
    var d := Decimal(n);
    if n < 10 {
      assert d[..0] == [];
    } else {
      DecimalIsRead(n / 10);
      assert d[..|d| - 1] == Decimal(n / 10);
    }
  }

  lemma FieldIsRead(name: seq<byte>, value: nat, rest: seq<byte>)
    requires EQUALS !in name
    ensures Values(Field(name, value) + rest) == [value] + Values(rest)
  {
    hide Value, Decimal;
    DecimalIsRead(value);
    var d := Decimal(value);
    var t := Field(name, value) + rest;
    assert t == name + [EQUALS] + (d + [NEWLINE] + rest);
    Splits(name, EQUALS, d + [NEWLINE] + rest);
    Splits(d, NEWLINE, rest);
  }

  lemma {:induction false} FieldsAreRead(names: seq<seq<byte>>, values: seq<nat>)
    requires |names| == |values| && forall i | 0 <= i < |names| :: EQUALS !in names[i]
    ensures Values(Fields(names, values)) == values
  {
    if names != [] {
      FieldsAreRead(names[1..], values[1..]);
      FieldIsRead(names[0], values[0], Fields(names[1..], values[1..]));
    }
  }

  /** Whoever reads a metrics reply gets the counters back, exactly. */
  lemma MetricsAreReadable(m: Proxy.Metrics)
    ensures Values(MetricsText(m)) == Counters(m)
  {
    hide Fields, Values;
    NamesAreClean();
    FieldsAreRead(CounterNames(), Counters(m));
  }

  lemma NameIsClean(name: string)
    requires forall i | 0 <= i < |name| :: name[i] == '_' || 'a' <= name[i] <= 'z'
    ensures EQUALS !in Ascii(name)
  {
  }

  lemma NamesAreClean()
    ensures forall i | 0 <= i < |CounterNames()| :: EQUALS !in CounterNames()[i]
  {
    hide Ascii;
    NameIsClean("historical_connections");
    NameIsClean("concurrent_connections");
    NameIsClean("successful_connections");
    NameIsClean("failed_connections");
    NameIsClean("bytes_transferred");
    NameIsClean("bytes_client_to_target");
    NameIsClean("bytes_target_to_client");
  }

  // ---------------------------------------------------------------- the server

  datatype Phase = Reading | Replying(reply: Reply) | Closed

  /** A management connection: what was read of the command, how far it is, and the users. */
  datatype Console = Console(input: seq<byte>, phase: Phase, users: UserMap)

  /** management_read */
  function AfterRead(c: Console, recv: Proxy.Recv): Console {
    if c.phase != Reading then c
    else
      match recv
      case RecvBlocked => c
      case RecvFailed => Console([], Closed, c.users)
      case Received(bytes) =>
        var got := Take(bytes, if |c.input| < BUFFER_SIZE then BUFFER_SIZE - |c.input| - 1 else 0);
        var input := c.input + got;
        if got == [] then Console([], Closed, c.users)
        else if NEWLINE in input || |input| == BUFFER_SIZE - 1 then
          var (users, reply) := Dispatch(c.users, Tokens(CommandText(input)));
          Console([], Replying(reply), users)
        else c.(input := input)
  }

  function AfterReads(c: Console, chunks: seq<seq<byte>>): Console {
    if chunks == [] then c else AfterRead(AfterReads(c, chunks[..|chunks| - 1]), Proxy.Received(chunks[|chunks| - 1]))
  }

  /** While the line is not complete, the server only collects it. */
  lemma {:induction false} PartialLineWaits(users: UserMap, chunks: seq<seq<byte>>)
    requires forall i | 0 <= i < |chunks| :: chunks[i] != []
    requires NEWLINE !in Concat(chunks) && |Concat(chunks)| < BUFFER_SIZE - 1
    ensures AfterReads(Console([], Reading, users), chunks) == Console(Concat(chunks), Reading, users)
  {
    if chunks != [] {
      var n := |chunks| - 1;
      assert Concat(chunks) == Concat(chunks[..n]) + chunks[n];
      PartialLineWaits(users, chunks[..n]);
      hide Dispatch;
    }
  }

  /** End to end: a command the client can print, delivered in any pieces, is answered only when the last piece is
      in, and then as the command with exactly the arguments the client was given. */
  lemma CommandsArrive(users: UserMap, args: seq<Text>, chunks: seq<seq<byte>>)
    requires forall i | 0 <= i < |args| :: IsToken(args[i])
    requires forall i | 0 <= i < |chunks| :: chunks[i] != []
    requires Line(Join(args)) == Some(Concat(chunks))
    ensures forall k | 0 <= k < |chunks| :: AfterReads(Console([], Reading, users), chunks[..k]).phase == Reading
    ensures AfterReads(Console([], Reading, users), chunks)
            == Console([], Replying(Dispatch(users, args).1), Dispatch(users, args).0)
  {
    hide Dispatch, Tokens;
    JoinIsClean(args);
    LineCarriesTheArguments(args);
    var line := Concat(chunks);
    forall k | 0 <= k < |chunks|
      ensures AfterReads(Console([], Reading, users), chunks[..k]) == Console(Concat(chunks[..k]), Reading, users)
    {
      ConcatIsPrefix(chunks, k);
      assert NEWLINE !in Concat(chunks[..k]) by {
        assert forall i | 0 <= i < |Concat(chunks[..k])| :: Concat(chunks[..k])[i] == Join(args)[i];
      }
      assert forall i | 0 <= i < k :: chunks[..k][i] == chunks[i];
      PartialLineWaits(users, chunks[..k]);
    }
    var n := |chunks| - 1;
    assert chunks[n] != [] && line == Concat(chunks[..n]) + chunks[n];
    assert line[|line| - 1] == NEWLINE;
  }

  lemma {:induction false} ConcatIsPrefix(chunks: seq<seq<byte>>, k: nat)
    requires k < |chunks| && forall i | 0 <= i < |chunks| :: chunks[i] != []
    ensures Concat(chunks[..k]) < Concat(chunks)
    decreases |chunks|
  {
    var n := |chunks| - 1;
    if k < n {
      ConcatIsPrefix(chunks[..n], k);
      assert chunks[..n][..k] == chunks[..k];
    }
  }

  // ---------------------------------------------------------------- tokenising in place

  /** From `from` up to `until` lie bytes that are blanks, or are not, and then something else. */
  ghost predicate Spans(b: seq<byte>, from: nat, until: nat, blanks: bool) {
    && from <= until < |b|
    && (forall k | from <= k < until :: b[k] != 0 && IsBlank(b[k]) == blanks)
    && (b[until] == 0 || IsBlank(b[until]) != blanks)
  }

  /** The scanning loops inside strtok. */
  method Scan(a: array<byte>, from: nat, blanks: bool, ghost end: nat) returns (until: nat)
    requires from <= end < a.Length && a[end] == 0
    ensures until <= end && Spans(a[..], from, until, blanks)
  {
    until := from;
    while a[until] != 0 && IsBlank(a[until]) == blanks
      invariant from <= until <= end
      invariant forall k | from <= k < until :: a[k] != 0 && IsBlank(a[k]) == blanks
      decreases end - until
    {
      until := until + 1;
    }
  }

  lemma CStringAt(b: seq<byte>, i: nat)
    requires i < |b|
    ensures CString(b[i..]) == if b[i] == 0 then [] else [b[i]] + CString(b[i + 1..])
  {
    assert b[i..][1..] == b[i + 1..];
  }

  /** A blank is skipped, and nothing else. */
  lemma OneBlank(b: seq<byte>, i: nat)
    requires i < |b|
    ensures b[i] != 0 && IsBlank(b[i]) ==> SkipBlanks(CString(b[i..])) == SkipBlanks(CString(b[i + 1..]))
    ensures b[i] == 0 || !IsBlank(b[i]) ==> SkipBlanks(CString(b[i..])) == CString(b[i..])
  {
    CStringAt(b, i);
    hide CString;
    if b[i] != 0 { assert ([b[i]] + CString(b[i + 1..]))[1..] == CString(b[i + 1..]); }
  }

  lemma {:induction false} BlankSpan(b: seq<byte>, from: nat, until: nat)
    requires Spans(b, from, until, true)
    ensures SkipBlanks(CString(b[from..])) == CString(b[until..])
    decreases until - from
  {
    hide CString, SkipBlanks, IsBlank;
    OneBlank(b, from);
    if from < until { BlankSpan(b, from + 1, until); }
  }

  lemma WordGrows(c: byte, t: seq<byte>)
    requires !IsBlank(c)
    ensures Word([c] + t) == [c] + Word(t)
  {
    assert ([c] + t)[1..] == t;
  }

  lemma NoWord(b: seq<byte>, i: nat)
    requires i < |b| && (b[i] == 0 || IsBlank(b[i]))
    ensures Word(CString(b[i..])) == []
  {
    CStringAt(b, i);
    hide CString;
  }

  lemma {:induction false} WordSpan(b: seq<byte>, from: nat, until: nat)
    requires Spans(b, from, until, false)
    ensures CString(b[from..]) == b[from..until] + CString(b[until..]) && Word(CString(b[from..])) == b[from..until]
    decreases until - from
  {
    hide CString, Word;
    if from == until {
      NoWord(b, until);
    } else {
      CStringAt(b, from);
      assert Spans(b, from + 1, until, false);
      WordSpan(b, from + 1, until);
      WordGrows(b[from], CString(b[from + 1..]));
      Longer(b, from, until, CString(b[until..]));
    }
  }

  lemma Longer(b: seq<byte>, from: nat, until: nat, rest: seq<byte>)
    requires from < until <= |b|
    ensures [b[from]] + b[from + 1..until] == b[from..until]
    ensures [b[from]] + (b[from + 1..until] + rest) == b[from..until] + rest
  {
    assert [b[from]] + b[from + 1..until] == b[from..until];
  }

  /** What the two scans find is the first token. */
  lemma FirstToken(b: seq<byte>, start: nat, first: nat, last: nat)
    requires Spans(b, start, first, true) && Spans(b, first, last, false)
    ensures Tokens(CString(b[start..])) == if first == last then [] else [b[first..last]] + Tokens(CString(b[last..]))
  {
    BlankSpan(b, start, first);
    WordSpan(b, first, last);
    var u := CString(b[first..]);
    assert u[|b[first..last]|..] == CString(b[last..]);
    CStringAt(b, first);
  }

  /** The blank that ends a token can be passed over. */
  lemma PastTheBlank(b: seq<byte>, i: nat)
    requires i < |b| && IsBlank(b[i])
    ensures Tokens(CString(b[i..])) == Tokens(CString(b[i + 1..]))
  {
    CStringAt(b, i);
    assert CString(b[i..])[1..] == CString(b[i + 1..]);
  }

  /** One call of strtok on the string that starts at `start` and ends at `end`: the next token, which a NUL ends in
      the buffer from now on, and where the next call goes on. */
  method StrTok(a: array<byte>, start: nat, ghost end: nat) returns (token: Option<Text>, next: nat)
    requires start <= end < a.Length && a[end] == 0
    modifies a
    ensures start <= next <= end && a[end] == 0 && a[..start] == old(a[..start])
    ensures Tokens(old(CString(a[start..])))
            == match token case None => [] case Some(t) => [t] + Tokens(CString(a[next..]))
  {
    hide Tokens, CString;
    var first := Scan(a, start, true, end);
    var last := Scan(a, first, false, end);
    FirstToken(a[..], start, first, last);
    assert a[..][start..] == a[start..] && a[..][last..] == a[last..];
    if first == last {
      return None, last;
    }
    token, next := Some(a[first..last]), last;
    if a[last] != 0 {
      PastTheBlank(a[..], last);
      ghost var tail := a[last + 1..];
      assert a[..][last + 1..] == tail;
      a[last] := 0;
      next := last + 1;
      assert a[next..] == tail;
    }
  }

  /** The first three tokens as strtok returned them, and the rest. */
  ghost predicate Parsed(tokens: seq<seq<byte>>, command: Option<Text>, arg1: Option<Text>, arg2: Option<Text>,
                         rest: seq<seq<byte>>) {
    if command.None? then tokens == []
    else if arg1.None? then tokens == [command.value]
    else if arg2.None? then tokens == [command.value, arg1.value]
    else tokens == [command.value, arg1.value, arg2.value] + rest
  }

  /** Three calls of strtok parse the first three tokens. */
  lemma ParsedByThree(t0: seq<seq<byte>>, t1: seq<seq<byte>>, t2: seq<seq<byte>>, t3: seq<seq<byte>>,
                      command: Option<Text>, arg1: Option<Text>, arg2: Option<Text>)
    requires t0 == match command case None => [] case Some(t) => [t] + t1
    requires t1 == match arg1 case None => [] case Some(t) => [t] + t2
    requires t2 == match arg2 case None => [] case Some(t) => [t] + t3
    ensures Parsed(t0, command, arg1, arg2, t3)
  {
  }

  // ---------------------------------------------------------------- the connection

  class Connection {
    const users: UserTable
    const readBuffer: array<byte>
    var readLen: nat
    var phase: Phase
    var output: seq<byte>
    var writeOff: nat

    ghost predicate Valid()
      reads this, users.slots
    {
      users.Valid() && readBuffer.Length == BUFFER_SIZE && readLen < BUFFER_SIZE && writeOff <= |output| < BUFFER_SIZE
    }

    ghost function Abs(): Console
      requires Valid()
      reads this, readBuffer, users.slots
    {
      Console(if phase == Reading then readBuffer[..readLen] else [], phase, users.Contents())
    }

    /** A connection accept_management_connection has registered. */
    constructor (users: UserTable)
      requires users.Valid()
      ensures Valid() && fresh(readBuffer) && this.users == users
      ensures Abs() == Console([], Reading, users.Contents())
    {
      this.users := users;
      readBuffer := new byte[BUFFER_SIZE](_ => 0);
      readLen, phase, output, writeOff := 0, Reading, [], 0;
    }

    /** management_read; a metrics reply reports the counters `m`. */
    method Read(recv: Proxy.Recv, m: Proxy.Metrics)
      requires Valid()
      modifies this, readBuffer, users.slots
      ensures Valid() && Abs() == AfterRead(old(Abs()), recv)
    {
      hide Tokens, CommandText, Dispatch, ReplyText, Entries, Unique;
      if phase != Reading {
        return;
      }
      match recv {
        case RecvBlocked =>
        case RecvFailed => phase := Closed;
        case Received(bytes) =>
          var got := Take(bytes, BUFFER_SIZE - readLen - 1);
          if got == [] {
            phase := Closed;
            return;
          }
          Store(got);
          if NEWLINE in readBuffer[..readLen] || readLen == BUFFER_SIZE - 1 {
            PrepareResponse(m);
          }
      }
    }

    /** Reads one after the other. */
    method ReadAll(chunks: seq<seq<byte>>, m: Proxy.Metrics)
      requires Valid()
      modifies this, readBuffer, users.slots
      ensures Valid() && Abs() == AfterReads(old(Abs()), chunks)
    {
      hide AfterRead;
      for k := 0 to |chunks|
        invariant Valid() && Abs() == AfterReads(old(Abs()), chunks[..k])
      {
        assert chunks[..k + 1][..k] == chunks[..k];
        Read(Proxy.Received(chunks[k]), m);
      }
      assert chunks[..|chunks|] == chunks;
    }

    /** What recv leaves in the buffer. */
    method Store(got: seq<byte>)
      requires Valid() && |got| < BUFFER_SIZE - readLen
      modifies `readLen, readBuffer
      ensures Valid() && readBuffer[..readLen] == old(readBuffer[..readLen]) + got
    {
      for i := 0 to |got|
        modifies readBuffer
        invariant readBuffer[..readLen] == old(readBuffer[..readLen])
        invariant readBuffer[readLen..readLen + i] == got[..i]
      {
        readBuffer[readLen + i] := got[i];
      }
      readLen := readLen + |got|;
    }

    /** management_prepare_response */
    method PrepareResponse(m: Proxy.Metrics)
      requires Valid()
      modifies this, readBuffer, users.slots
      ensures Valid()
      ensures var input := old(readBuffer[..readLen]);
              var (after, reply) := Dispatch(old(users.Contents()), Tokens(CommandText(input)));
              phase == Replying(reply) && users.Contents() == after
      ensures writeOff == 0
      ensures output == Take(ReplyText(phase.reply, m, users.slots[..], |users.Contents()|), BUFFER_SIZE - 1)
    {
      hide Tokens, CString, CommandText, Dispatch, Entries, Unique, ReplyText, Take, Parsed;
      var end := Terminate();
      assert readBuffer[0..] == readBuffer[..];
      ghost var t0 := Tokens(CString(readBuffer[0..]));
      var command, next := StrTok(readBuffer, 0, end);
      ghost var t1 := Tokens(CString(readBuffer[next..]));
      var arg1, arg2;
      arg1, next := StrTok(readBuffer, next, end);
      ghost var t2 := Tokens(CString(readBuffer[next..]));
      arg2, next := StrTok(readBuffer, next, end);
      ParsedByThree(t0, t1, t2, Tokens(CString(readBuffer[next..])), command, arg1, arg2);
      Respond(t0, command, arg1, arg2, next, end, m);
    }

    /** Run the command found. */
    method Respond(ghost tokens: seq<seq<byte>>, command: Option<Text>, arg1: Option<Text>, arg2: Option<Text>,
                   next: nat, ghost end: nat, m: Proxy.Metrics)
      requires Valid() && next <= end < readBuffer.Length && readBuffer[end] == 0
      requires Parsed(tokens, command, arg1, arg2, Tokens(CString(readBuffer[next..])))
      modifies this, readBuffer, users.slots
      ensures Valid()
      ensures (users.Contents(), phase) == (var (after, reply) := Dispatch(old(users.Contents()), tokens); (after, Replying(reply)))
      ensures writeOff == 0
      ensures output == Take(ReplyText(phase.reply, m, users.slots[..], |users.Contents()|), BUFFER_SIZE - 1)
    {
      hide Tokens, CString, Named, Adding, Removing, Entries, Unique, ReplyText, Take;
      if command.None? {
        Print(EmptyCommand, m);
      } else if Named(command.value, "STATS") || Named(command.value, "METRICS") {
        Print(Stats, m);
      } else if Named(command.value, "USERS") {
        Print(Listing, m);
      } else if Named(command.value, "ADDUSER") {
        var arg3 := None;
        if arg1.Some? && arg2.Some? {
          var unused;
          arg3, unused := StrTok(readBuffer, next, end);
        }
        if arg1.None? || arg2.None? || arg3.Some? {
          Print(AddUsage, m);
        } else {
          var result := users.Add(arg1, arg2);
          var count := users.Count();
          Print(Added(result, count), m);
        }
      } else if Named(command.value, "DELUSER") {
        if arg1.None? || arg2.Some? {
          Print(RemoveUsage, m);
        } else {
          var result := users.Remove(arg1);
          var count := users.Count();
          Print(Removed(result, count), m);
        }
      } else if Named(command.value, "QUIT") {
        Print(Bye, m);
      } else if Named(command.value, "HELP") {
        Print(Help, m);
      } else {
        Print(Unknown, m);
      }
    }

    /** The snprintf calls: the text of a reply, cut to the write buffer. */
    method Print(reply: Reply, m: Proxy.Metrics)
      requires Valid()
      modifies `phase, `output, `writeOff
      ensures Valid() && phase == Replying(reply) && writeOff == 0
      ensures output == Take(ReplyText(reply, m, users.slots[..], |users.Contents()|), BUFFER_SIZE - 1)
    {
      hide CountLine, UserLines, MetricsText, ResultName, Entries, Unique;
      var text: seq<byte>;
      match reply {
        case EmptyCommand => text := Ascii("error=empty_command\n");
        case Stats => text := MetricsText(m);
        case Listing =>
          var stored := users.FormatList(BUFFER_SIZE);
          text := stored.value;
        case AddUsage => text := Ascii("error=usage_ADDUSER_user_pass\n");
        case Added(result, n) => text := Ascii("adduser=") + ResultName(result) + [NEWLINE] + CountLine(n);
        case RemoveUsage => text := Ascii("error=usage_DELUSER_user\n");
        case Removed(result, n) => text := Ascii("deluser=") + ResultName(result) + [NEWLINE] + CountLine(n);
        case Bye => text := Ascii("ok=bye\n");
        case Help => text := Ascii("commands=STATS,METRICS,USERS,ADDUSER,DELUSER,HELP,QUIT\n");
        case Unknown => text := Ascii("error=unknown_command\n");
      }
      phase, output, writeOff := Replying(reply), Take(text, BUFFER_SIZE - 1), 0;
    }

    /** management_write: the reply goes out in order; the connection is closed when all of it went, or when sending
        failed. */
    method Write(sends: seq<Proxy.Send>)
      requires Valid() && phase.Replying?
      modifies `phase, `writeOff
      ensures Valid() && Proxy.Flush(output, old(writeOff), sends).off == writeOff
      ensures phase == if Proxy.Flush(output, old(writeOff), sends).end == Proxy.Blocked then old(phase) else Closed
      ensures writeOff == Min(|output|, old(writeOff) + Wire.Accepted(sends))
      ensures phase == Closed <==> old(writeOff) + Wire.Accepted(sends) >= |output| || Wire.Lost(sends)
    {
      hide Wire.Accepted, Wire.Lost;
      Wire.FlushMoves(output, writeOff, sends);
      var k := 0;
      while writeOff < |output|
        invariant writeOff <= |output| && k <= |sends| && phase == old(phase)
        invariant Proxy.Flush(output, writeOff, sends[k..]) == Proxy.Flush(output, old(writeOff), sends)
        decreases |sends| - k
      {
        if k == |sends| || sends[k].SendBlocked? {
          return;
        }
        if sends[k].SendFailed? || sends[k].n == 0 {
          phase := Closed;
          return;
        }
        writeOff := writeOff + Min(sends[k].n, |output| - writeOff);
        assert sends[k..][1..] == sends[k + 1..];
        k := k + 1;
      }
      phase := Closed;
    }

    /** End the string where the command ends. */
    method Terminate() returns (end: nat)
      requires Valid()
      modifies readBuffer
      ensures end < readBuffer.Length && readBuffer[end] == 0
      ensures CString(readBuffer[..]) == CommandText(old(readBuffer[..readLen]))
    {
      ghost var input := readBuffer[..readLen];
      readBuffer[readLen] := 0;
      end := 0;
      while readBuffer[end] != 0 && readBuffer[end] != RETURN && readBuffer[end] != NEWLINE
        invariant end <= readLen && readBuffer[readLen] == 0 && readBuffer[..readLen] == input
        invariant forall i | 0 <= i < end :: readBuffer[i] != 0 && readBuffer[i] != RETURN && readBuffer[i] != NEWLINE
        decreases readLen - end
      {
        end := end + 1;
      }
      CommandTextUpTo(input, end);
      readBuffer[end] := 0;
      CStringUpTo(readBuffer[..], end);
      assert readBuffer[..end] == input[..end];
    }
  }

  lemma {:induction false} CommandTextUpTo(b: seq<byte>, k: nat)
    requires k <= |b| && forall i | 0 <= i < k :: b[i] != 0 && b[i] != RETURN && b[i] != NEWLINE
    requires k == |b| || b[k] == 0 || b[k] == RETURN || b[k] == NEWLINE
    ensures CommandText(b) == b[..k]
  {
    if k > 0 {
      CommandTextUpTo(b[1..], k - 1);
      assert b[..k] == [b[0]] + b[1..][..k - 1];
    }
  }

  lemma {:induction false} CStringUpTo(b: seq<byte>, k: nat)
    requires k < |b| && b[k] == 0 && forall i | 0 <= i < k :: b[i] != 0
    ensures CString(b) == b[..k]
  {
    if k > 0 {
      CStringUpTo(b[1..], k - 1);
      assert b[..k] == [b[0]] + b[1..][..k - 1];
    }
  }
}
