/** What the management console does for a command, word by word: who is configured afterwards, and the text of the reply. */
module Console {
  import opened Basics
  import opened Socks5
  import opened Users
  import opened Automaton
  import opened Management
  import Proxy

  /** `word` is the upper-case name `s`, with any of its letters in lower case. */
  ghost predicate Spells(word: seq<byte>, s: string) {
    |word| == |s| && forall i | 0 <= i < |s| :: word[i] == s[i] as int || word[i] == s[i] as int + 32
  }

  ghost predicate IsUpper(s: string) {
    forall i | 0 <= i < |s| :: 'A' <= s[i] <= 'Z'
  }

  lemma NamedSpells(word: seq<byte>, s: string)
    requires IsUpper(s)
    ensures Named(word, s) <==> Spells(word, s)
  {
    forall i | 0 <= i < |s| ensures Ascii(s)[i] == s[i] as int { assert 65 <= s[i] as int <= 90; }
    forall i | 0 <= i < |s| && i < |word|
      ensures Lower(word[i]) == Lower(Ascii(s)[i]) <==> word[i] == s[i] as int || word[i] == s[i] as int + 32
    {
    }
    hide Ascii, Lower;
  }

  /** The commands differ in their first letter. */
  lemma OneCommand(word: seq<byte>)
    ensures (Named(word, "STATS") <==> Spells(word, "STATS")) && (Named(word, "METRICS") <==> Spells(word, "METRICS"))
    ensures (Named(word, "USERS") <==> Spells(word, "USERS")) && (Named(word, "ADDUSER") <==> Spells(word, "ADDUSER"))
    ensures (Named(word, "DELUSER") <==> Spells(word, "DELUSER")) && (Named(word, "QUIT") <==> Spells(word, "QUIT"))
    ensures Named(word, "HELP") <==> Spells(word, "HELP")
  {
    NamedSpells(word, "STATS");
    NamedSpells(word, "METRICS");
    NamedSpells(word, "USERS");
    NamedSpells(word, "ADDUSER");
    NamedSpells(word, "DELUSER");
    NamedSpells(word, "QUIT");
    NamedSpells(word, "HELP");
  }

  ghost function Initial(word: seq<byte>): int {
    if word == [] then 0 else word[0]
  }

  lemma Initials(word: seq<byte>)
    ensures Spells(word, "STATS") ==> Initial(word) in {83, 115}
    ensures Spells(word, "METRICS") ==> Initial(word) in {77, 109}
    ensures Spells(word, "USERS") ==> Initial(word) in {85, 117}
    ensures Spells(word, "ADDUSER") ==> Initial(word) in {65, 97}
    ensures Spells(word, "DELUSER") ==> Initial(word) in {68, 100}
    ensures Spells(word, "QUIT") ==> Initial(word) in {81, 113}
    ensures Spells(word, "HELP") ==> Initial(word) in {72, 104}
  {
  }

  /** What is configured after a command, and the text of its reply. */
  ghost function Said(users: UserMap, tokens: seq<seq<byte>>, m: Proxy.Metrics, slots: seq<Slot>): (UserMap, seq<byte>) {
    var (after, reply) := Dispatch(users, tokens);
    (after, ReplyText(reply, m, slots, |after|))
  }

  ghost function Counted(prefix: string, n: nat): seq<byte> {
    Ascii(prefix) + [10] + CountLine(n)
  }

  /** No command. */
  lemma NothingSaid(users: UserMap, m: Proxy.Metrics, slots: seq<Slot>)
    ensures Said(users, [], m, slots) == (users, Ascii("error=empty_command\n"))
  {
  }

  /** STATS and METRICS, with or without arguments: the counters can be read back from the reply. */
  lemma StatsReport(users: UserMap, tokens: seq<seq<byte>>, m: Proxy.Metrics, slots: seq<Slot>)
    requires tokens != [] && (Spells(tokens[0], "STATS") || Spells(tokens[0], "METRICS"))
    ensures Said(users, tokens, m, slots).0 == users
    ensures Values(Said(users, tokens, m, slots).1)
            == [m.historical, m.concurrent, m.successful, m.failed, m.upstream + m.downstream, m.upstream, m.downstream]
  {
    hide Named, Spells, Values, MetricsText, Ascii;
    OneCommand(tokens[0]);
    MetricsAreReadable(m);
  }

  /** USERS: the count and the listing. */
  lemma UsersList(users: UserMap, tokens: seq<seq<byte>>, m: Proxy.Metrics, slots: seq<Slot>)
    requires tokens != [] && Spells(tokens[0], "USERS")
    ensures Said(users, tokens, m, slots)
            == (users, Ascii("users_count=") + Decimal(|users|) + [10] + UserLines(slots))
  {
    hide Named, Spells, UserLines, Decimal;
    OneCommand(tokens[0]);
    Initials(tokens[0]);
    assert Ascii("\n") == [10];
    hide Ascii;
  }

  lemma UserTexts(m: Proxy.Metrics, slots: seq<Slot>, count: nat, result: Result, n: nat)
    ensures ReplyText(Added(result, n), m, slots, count) == Ascii("adduser=") + ResultName(result) + [10] + CountLine(n)
    ensures ReplyText(Removed(result, n), m, slots, count) == Ascii("deluser=") + ResultName(result) + [10] + CountLine(n)
    ensures ReplyText(AddUsage, m, slots, count) == Ascii("error=usage_ADDUSER_user_pass\n")
    ensures ReplyText(RemoveUsage, m, slots, count) == Ascii("error=usage_DELUSER_user\n")
  {
    hide Ascii, ResultName, CountLine;
  }

  lemma AddUserDispatch(users: UserMap, tokens: seq<seq<byte>>)
    requires tokens != [] && Spells(tokens[0], "ADDUSER")
    ensures |tokens| != 3 ==> Dispatch(users, tokens) == (users, AddUsage)
    ensures |tokens| == 3 ==> var (after, result) := Adding(users, AsText(tokens[1]), AsText(tokens[2]));
                              Dispatch(users, tokens) == (after, Added(result, |after|))
  {
    hide Named, Spells, Adding;
    OneCommand(tokens[0]);
    Initials(tokens[0]);
  }

  /** ADDUSER and DELUSER with another number of arguments get the usage. */
  lemma Usage(users: UserMap, tokens: seq<seq<byte>>, m: Proxy.Metrics, slots: seq<Slot>)
    requires tokens != []
    ensures Spells(tokens[0], "ADDUSER") && |tokens| != 3 ==>
              Said(users, tokens, m, slots) == (users, Ascii("error=usage_ADDUSER_user_pass\n"))
    ensures Spells(tokens[0], "DELUSER") && |tokens| != 2 ==>
              Said(users, tokens, m, slots) == (users, Ascii("error=usage_DELUSER_user\n"))
  {
    hide Spells, Ascii, Adding, Removing, CountLine, ResultName, ReplyText, Dispatch;
    UserTexts(m, slots, |users|, Ok, 0);
    if Spells(tokens[0], "ADDUSER") { AddUserDispatch(users, tokens); }
    if Spells(tokens[0], "DELUSER") { DelUserDispatch(users, tokens); }
  }

  lemma AddUserSays(users: UserMap, command: seq<byte>, name: Text, pass: Text, m: Proxy.Metrics, slots: seq<Slot>)
    requires Spells(command, "ADDUSER")
    ensures var (after, result) := Adding(users, Some(name), Some(pass));
            Said(users, [command, name, pass], m, slots) == (after, Ascii("adduser=") + ResultName(result) + [10] + CountLine(|after|))
  {
    hide Spells, Ascii, Adding, CountLine, ResultName, ReplyText, Dispatch;
    AddUserDispatch(users, [command, name, pass]);
    var (after, result) := Adding(users, Some(name), Some(pass));
    UserTexts(m, slots, |after|, result, |after|);
  }

  /** ADDUSER with a name and a password: the pair is added if it can be, and the reply says what came of it. */
  lemma AddUser(users: UserMap, command: seq<byte>, name: Text, pass: Text, m: Proxy.Metrics, slots: seq<Slot>)
    requires Spells(command, "ADDUSER") && name != [] && pass != []
    ensures Said(users, [command, name, pass], m, slots)
            == if |name| > 255 || |pass| > 255 then (users, Counted("adduser=invalid", |users|))
               else if name in users then (users, Counted("adduser=exists", |users|))
               else if |users| >= 10 then (users, Counted("adduser=full", |users|))
               else (users[name := pass], Counted("adduser=ok", |users| + 1))
  {
    hide Spells, Ascii, Adding, CountLine, ResultName, Said;
    AddUserSays(users, command, name, pass, m, slots);
    AddingIsExact(users, Some(name), Some(pass));
    if name !in users { assert users[name := pass].Keys == users.Keys + {name}; }
    Words();
  }

  lemma Words()
    ensures Ascii("adduser=") + ResultName(Ok) == Ascii("adduser=ok")
    ensures Ascii("adduser=") + ResultName(Exists) == Ascii("adduser=exists")
    ensures Ascii("adduser=") + ResultName(Full) == Ascii("adduser=full")
    ensures Ascii("adduser=") + ResultName(Invalid) == Ascii("adduser=invalid")
    ensures Ascii("deluser=") + ResultName(Ok) == Ascii("deluser=ok")
    ensures Ascii("deluser=") + ResultName(NotFound) == Ascii("deluser=not_found")
    ensures Ascii("deluser=") + ResultName(Invalid) == Ascii("deluser=invalid")
  {
  }

  lemma DelUserDispatch(users: UserMap, tokens: seq<seq<byte>>)
    requires tokens != [] && Spells(tokens[0], "DELUSER")
    ensures |tokens| != 2 ==> Dispatch(users, tokens) == (users, RemoveUsage)
    ensures |tokens| == 2 ==> var (after, result) := Removing(users, AsText(tokens[1]));
                              Dispatch(users, tokens) == (after, Removed(result, |after|))
  {
    hide Named, Spells, Removing;
    OneCommand(tokens[0]);
    Initials(tokens[0]);
  }

  lemma DelUserSays(users: UserMap, command: seq<byte>, name: Text, m: Proxy.Metrics, slots: seq<Slot>)
    requires Spells(command, "DELUSER")
    ensures var (after, result) := Removing(users, Some(name));
            Said(users, [command, name], m, slots) == (after, Ascii("deluser=") + ResultName(result) + [10] + CountLine(|after|))
  {
    hide Spells, Ascii, Removing, CountLine, ResultName, ReplyText, Dispatch;
    DelUserDispatch(users, [command, name]);
    var (after, result) := Removing(users, Some(name));
    UserTexts(m, slots, |after|, result, |after|);
  }

  /** DELUSER with a name: it goes if it is there. */
  lemma DelUser(users: UserMap, command: seq<byte>, name: Text, m: Proxy.Metrics, slots: seq<Slot>)
    requires Spells(command, "DELUSER") && name != []
    ensures Said(users, [command, name], m, slots)
            == if |name| > 255 then (users, Counted("deluser=invalid", |users|))
               else if name !in users then (users, Counted("deluser=not_found", |users|))
               else (users - {name}, Counted("deluser=ok", |users| - 1))
  {
    hide Spells, Ascii, Removing, CountLine, ResultName, Said;
    DelUserSays(users, command, name, m, slots);
    RemovingIsExact(users, Some(name));
    if name in users { assert (users - {name}).Keys == users.Keys - {name}; }
    Words();
  }

  /** QUIT, HELP, and anything else. */
  lemma OtherCommands(users: UserMap, tokens: seq<seq<byte>>, m: Proxy.Metrics, slots: seq<Slot>)
    requires tokens != []
    ensures Spells(tokens[0], "QUIT") ==> Said(users, tokens, m, slots) == (users, Ascii("ok=bye\n"))
    ensures Spells(tokens[0], "HELP") ==>
              Said(users, tokens, m, slots) == (users, Ascii("commands=STATS,METRICS,USERS,ADDUSER,DELUSER,HELP,QUIT\n"))
    ensures !(Spells(tokens[0], "STATS") || Spells(tokens[0], "METRICS") || Spells(tokens[0], "USERS") || Spells(tokens[0], "ADDUSER")
              || Spells(tokens[0], "DELUSER") || Spells(tokens[0], "QUIT") || Spells(tokens[0], "HELP")) ==>
              Said(users, tokens, m, slots) == (users, Ascii("error=unknown_command\n"))
  {
    hide Spells, Ascii, ReplyText, Dispatch;
    OtherDispatch(users, tokens);
    OtherTexts(m, slots, |users|);
  }

  lemma OtherTexts(m: Proxy.Metrics, slots: seq<Slot>, count: nat)
    ensures ReplyText(Bye, m, slots, count) == Ascii("ok=bye\n")
    ensures ReplyText(Help, m, slots, count) == Ascii("commands=STATS,METRICS,USERS,ADDUSER,DELUSER,HELP,QUIT\n")
    ensures ReplyText(Unknown, m, slots, count) == Ascii("error=unknown_command\n")
  {
    hide Ascii;
  }

  lemma OtherDispatch(users: UserMap, tokens: seq<seq<byte>>)
    requires tokens != []
    ensures Spells(tokens[0], "QUIT") ==> Dispatch(users, tokens) == (users, Bye)
    ensures Spells(tokens[0], "HELP") ==> Dispatch(users, tokens) == (users, Help)
    ensures !(Spells(tokens[0], "STATS") || Spells(tokens[0], "METRICS") || Spells(tokens[0], "USERS") || Spells(tokens[0], "ADDUSER")
              || Spells(tokens[0], "DELUSER") || Spells(tokens[0], "QUIT") || Spells(tokens[0], "HELP")) ==>
              Dispatch(users, tokens) == (users, Unknown)
  {
    hide Named, Spells;
    OneCommand(tokens[0]);
    Initials(tokens[0]);
  }

  // ---------------------------------------------------------------- words and lines

  lemma BlankInFront(c: byte, rest: seq<byte>)
    requires c == 32 || c == 9
    ensures Tokens([c] + rest) == Tokens(rest)
  {
    assert ([c] + rest)[1..] == rest;
  }

  lemma WordInFront(word: seq<byte>, rest: seq<byte>)
    requires word != [] && 32 !in word && 9 !in word && (rest == [] || rest[0] == 32 || rest[0] == 9)
    ensures Tokens(word + rest) == [word] + Tokens(rest)
  {
    var t := word + rest;
    assert t != [] && t[0] == word[0] && !IsBlank(t[0]);
    assert SkipBlanks(t) == t;
    WordEnds(word, rest);
    hide Word, SkipBlanks;
    assert t[|word|..] == rest;
  }

  /** How a command falls into words, told by equations: spaces and tabs are passed over, and a word ends at one. */
  lemma WordsAreSplit(word: seq<byte>, c: byte, rest: seq<byte>)
    requires c == 32 || c == 9
    ensures Tokens([]) == [] && Tokens([c] + rest) == Tokens(rest)
    ensures word != [] && 32 !in word && 9 !in word ==> Tokens(word) == [word] && Tokens(word + ([c] + rest)) == [word] + Tokens(rest)
  {
    assert Tokens([]) == [] by { NoWords(); }
    hide Tokens;
    BlankInFront(c, rest);
    if word != [] && 32 !in word && 9 !in word {
      WordInFront(word, []);
      assert word + [] == word;
      WordInFront(word, [c] + rest);
    }
  }

  lemma NoWords()
    ensures Tokens([]) == []
  {
  }

  lemma {:induction false} WordEnds(word: seq<byte>, rest: seq<byte>)
    requires 32 !in word && 9 !in word && (rest == [] || rest[0] == 32 || rest[0] == 9)
    ensures Word(word + rest) == word
  {
    if word != [] {
      assert (word + rest)[1..] == word[1..] + rest;
      WordEnds(word[1..], rest);
    } else {
      assert word + rest == rest;
    }
  }

  /** A command is what comes before the first NUL, carriage return or newline. */
  lemma CommandEnds(command: seq<byte>, rest: seq<byte>)
    requires forall i | 0 <= i < |command| :: command[i] != 0 && command[i] != 13 && command[i] != 10
    requires rest == [] || rest[0] == 0 || rest[0] == 13 || rest[0] == 10
    ensures CommandText(command + rest) == command
  {
    CommandTextUpTo(command + rest, |command|);
  }

  /** A command is answered exactly when its line has ended or the buffer of 1023 bytes is full, with everything read so
      far; before that it is only collected, and a peer that is gone closes the connection. */
  lemma LinesAreAnswered(c: Console, bytes: seq<byte>)
    requires c.phase == Reading && |c.input| < 1023 && NEWLINE !in c.input
    ensures var room := 1023 - |c.input|; var b := c.input + (if |bytes| <= room then bytes else bytes[..room]);
            var r := AfterRead(c, Proxy.Received(bytes));
            && (bytes == [] ==> r.phase == Closed && r.users == c.users)
            && (bytes != [] ==> (r.phase.Replying? <==> 10 in b || |b| == 1023))
            && (bytes != [] && 10 !in b && |b| < 1023 ==> r == Console([], Reading, c.users).(input := b))
            && (r.phase.Replying? ==> (r.users, r.phase.reply) == Dispatch(c.users, Tokens(CommandText(b))))
    ensures AfterRead(c, Proxy.RecvBlocked) == c && AfterRead(c, Proxy.RecvFailed).phase == Closed
  {
    hide Dispatch, Tokens, CommandText;
  }

  // ---------------------------------------------------------------- the listing

  /** The names of `user=name` lines, as a reader of the listing would take them. */
  ghost function NamesIn(t: seq<byte>): seq<seq<byte>>
    decreases |t|
  {
    if t == [] then [] else [Before(After(t, 61), 10)] + NamesIn(After(After(t, 61), 10))
  }

  /** The names of the slots in use, in order. */
  ghost function Occupants(slots: seq<Slot>): seq<seq<byte>> {
    if slots == [] then [] else (if slots[0].inUse then [slots[0].username] else []) + Occupants(slots[1..])
  }

  ghost function LineOf(slot: Slot): seq<byte> {
    if slot.inUse then UserLine(slot.username) else []
  }

  lemma LastLine(slots: seq<Slot>)
    requires slots != []
    ensures UserLines(slots) == UserLines(slots[..|slots| - 1]) + LineOf(slots[|slots| - 1])
  {
    hide UserLine;
  }

  lemma {:induction false} LinesFront(slots: seq<Slot>)
    requires slots != []
    ensures UserLines(slots) == LineOf(slots[0]) + UserLines(slots[1..])
  {
    hide UserLines, LineOf;
    var n := |slots| - 1;
    LastLine(slots);
    if n > 0 {
      LinesFront(slots[..n]);
      LastLine(slots[1..]);
      assert slots[..n][1..] == slots[1..][..n - 1] && slots[1..][n - 1] == slots[n];
    } else {
      assert slots[..0] == [] && slots[1..] == [];
      NoListing();
      assert [] + LineOf(slots[0]) == LineOf(slots[0]) + [];
    }
  }

  lemma LineIsRead(name: Text, rest: seq<byte>)
    requires NEWLINE !in name
    ensures NamesIn(UserLine(name) + rest) == [name] + NamesIn(rest)
  {
    var t := UserLine(name) + rest;
    assert t == Ascii("user") + [EQUALS] + (name + [NEWLINE] + rest);
    assert EQUALS !in Ascii("user");
    Splits(Ascii("user"), EQUALS, name + [NEWLINE] + rest);
    Splits(name, NEWLINE, rest);
    hide Ascii, UserLine, Before, After;
  }

  /** Whoever reads the listing gets the names of the slots in use, in slot order. */
  lemma {:induction false} ListingIsReadable(slots: seq<Slot>)
    requires forall i | 0 <= i < |slots| :: NEWLINE !in slots[i].username
    ensures NamesIn(UserLines(slots)) == Occupants(slots)
  {
    hide NamesIn, UserLines, UserLine;
    if slots == [] {
      assert UserLines(slots) == [] && NamesIn([]) == [] by { NoListing(); }
    } else {
      LinesFront(slots);
      ListingIsReadable(slots[1..]);
      if slots[0].inUse {
        LineIsRead(slots[0].username, UserLines(slots[1..]));
      } else {
        assert [] + UserLines(slots[1..]) == UserLines(slots[1..]);
      }
    }
  }

  lemma NoListing()
    ensures UserLines([]) == [] && NamesIn([]) == []
  {
  }
}
