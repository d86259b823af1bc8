/** The user table (src/server/users.c): ten slots that stand for a map of at most ten unique names. */
module Users {
  import opened Basics
  import opened Socks5

  const USERS_MAX := 10
  const FIELD_MAX := 255

  /** A C string: bytes without a NUL. A null pointer is `None`. */
  type Text = s: seq<byte> | 0 !in s

  datatype Result = Ok | Exists | NotFound | Full | Invalid

  datatype Slot = Slot(username: Text, password: Text, inUse: bool)

  const EMPTY := Slot([], [], false)

  predicate FieldIsValid(field: Option<Text>) {
    field.Some? && 0 < |field.value| <= FIELD_MAX
  }

  /** A field that is there, with 1 to 255 bytes. */
  ghost predicate Given(field: Option<Text>) {
    field.Some? && 1 <= |field.value| <= 255
  }

  // ---------------------------------------------------------------- the table as a map

  /** What users_add does to a map of users. */
  function Adding(users: UserMap, name: Option<Text>, pass: Option<Text>): (UserMap, Result) {
    if !FieldIsValid(name) || !FieldIsValid(pass) then (users, Invalid)
    else if name.value in users then (users, Exists)
    else if |users| >= USERS_MAX then (users, Full)
    else (users[name.value := pass.value], Ok)
  }

  /** What users_remove does to it. */
  function Removing(users: UserMap, name: Option<Text>): (UserMap, Result) {
    if !FieldIsValid(name) then (users, Invalid)
    else if name.value !in users then (users, NotFound)
    else (users - {name.value}, Ok)
  }

  // ---------------------------------------------------------------- slots

  /** No name is in two slots. */
  ghost predicate Unique(slots: seq<Slot>) {
    forall i, j | 0 <= i < j < |slots| && slots[i].inUse && slots[j].inUse :: slots[i].username != slots[j].username
  }

  ghost function Entries(slots: seq<Slot>): UserMap {
    if slots == [] then map[]
    else
      var rest := Entries(slots[..|slots| - 1]);
      var last := slots[|slots| - 1];
      if last.inUse then rest[last.username := last.password] else rest
  }

  ghost predicate Holds(slots: seq<Slot>, i: int, name: seq<byte>) {
    0 <= i < |slots| && slots[i].inUse && slots[i].username == name
  }

  /** What the map holds comes from a slot in use. */
  lemma {:induction false} EntriesCome(slots: seq<Slot>, name: seq<byte>)
    requires name in Entries(slots)
    ensures exists i :: Holds(slots, i, name)
  {
    var n := |slots| - 1;
    if slots[n].inUse && name == slots[n].username {
      assert Holds(slots, n, name);
    } else {
      EntriesCome(slots[..n], name);
      var i :| Holds(slots[..n], i, name);
      assert Holds(slots, i, name);
    }
  }

  /** What a slot in use holds is in the map. */
  lemma {:induction false} EntriesHold(slots: seq<Slot>, i: nat)
    requires Unique(slots) && i < |slots| && slots[i].inUse
    ensures slots[i].username in Entries(slots) && Entries(slots)[slots[i].username] == slots[i].password
  {
    var n := |slots| - 1;
    if i < n {
      EntriesHold(slots[..n], i);
    }
  }

  lemma {:induction false} EntriesCount(slots: seq<Slot>)
    requires Unique(slots)
    ensures |Entries(slots)| == InUse(slots)
  {
    if slots != [] {
      var n := |slots| - 1;
      EntriesCount(slots[..n]);
      if slots[n].inUse && slots[n].username in Entries(slots[..n]) {
        EntriesCome(slots[..n], slots[n].username);
        assert false;
      }
    }
  }

  /** With unique names, the map holds exactly the slots in use. */
  lemma EntriesAre(slots: seq<Slot>)
    requires Unique(slots)
    ensures forall i | 0 <= i < |slots| && slots[i].inUse ::
              slots[i].username in Entries(slots) && Entries(slots)[slots[i].username] == slots[i].password
    ensures forall name | name in Entries(slots) :: exists i :: Holds(slots, i, name)
    ensures |Entries(slots)| == InUse(slots)
  {
    hide Entries, InUse, Unique;
    forall i | 0 <= i < |slots| && slots[i].inUse
      ensures slots[i].username in Entries(slots) && Entries(slots)[slots[i].username] == slots[i].password
    {
      EntriesHold(slots, i);
    }
    forall name | name in Entries(slots) ensures exists i :: Holds(slots, i, name) { EntriesCome(slots, name); }
    EntriesCount(slots);
  }

  ghost function InUse(slots: seq<Slot>): nat {
    if slots == [] then 0 else InUse(slots[..|slots| - 1]) + if slots[|slots| - 1].inUse then 1 else 0
  }

  lemma {:induction false} AllInUse(slots: seq<Slot>)
    ensures InUse(slots) <= |slots|
    ensures InUse(slots) == |slots| <==> forall i | 0 <= i < |slots| :: slots[i].inUse
  {
    if slots != [] {
      var n := |slots| - 1;
      AllInUse(slots[..n]);
      assert (forall i | 0 <= i < n :: slots[..n][i].inUse) <==> forall i | 0 <= i < n :: slots[i].inUse;
    }
  }

  /** Filling a free slot adds one entry. */
  lemma FillingAdds(slots: seq<Slot>, k: nat, slot: Slot)
    requires k < |slots| && !slots[k].inUse && slot.inUse && Unique(slots) && slot.username !in Entries(slots)
    ensures Unique(slots[k := slot]) && Entries(slots[k := slot]) == Entries(slots)[slot.username := slot.password]
  {
    var after := slots[k := slot];
    EntriesAre(slots);
    assert Unique(after);
    var m := Entries(slots)[slot.username := slot.password];
    forall name | name in m ensures exists i :: Holds(after, i, name) {
      if name == slot.username { assert Holds(after, k, name); }
      else { var i :| Holds(slots, i, name); assert Holds(after, i, name); }
    }
    SameEntries(after, m);
  }

  /** Clearing a slot removes one entry. */
  lemma ClearingRemoves(slots: seq<Slot>, k: nat)
    requires k < |slots| && slots[k].inUse && Unique(slots)
    ensures Unique(slots[k := EMPTY]) && Entries(slots[k := EMPTY]) == Entries(slots) - {slots[k].username}
  {
    EntriesAre(slots);
    var after, m := slots[k := EMPTY], Entries(slots) - {slots[k].username};
    assert Unique(after);
    forall name | name in m ensures exists i :: Holds(after, i, name) {
      var i :| Holds(slots, i, name);
      assert Holds(after, i, name);
    }
    SameEntries(after, m);
  }

  /** A map that holds exactly the slots in use is the entries. */
  lemma SameEntries(slots: seq<Slot>, m: UserMap)
    requires Unique(slots)
    requires forall i | 0 <= i < |slots| && slots[i].inUse :: slots[i].username in m && m[slots[i].username] == slots[i].password
    requires forall name | name in m :: exists i :: Holds(slots, i, name)
    ensures Entries(slots) == m
  {
    EntriesAre(slots);
    forall name | name in Entries(slots) || name in m
      ensures name in Entries(slots) && name in m && Entries(slots)[name] == m[name]
    {
      var i :| Holds(slots, i, name);
    }
  }

  // ---------------------------------------------------------------- the listing

  /** The bytes of an ASCII text. */
  function Ascii(s: string): seq<byte> {
    seq(|s|, i requires 0 <= i < |s| => (s[i] as int % 256) as byte)
  }

  function Decimal(n: nat): seq<byte> {
    if n < 10 then [(48 + n) as byte] else Decimal(n / 10) + [(48 + n % 10) as byte]
  }

  function CountLine(count: nat): seq<byte> {
    Ascii("users_count=") + Decimal(count) + Ascii("\n")
  }

  function UserLine(name: Text): seq<byte> {
    Ascii("user=") + name + Ascii("\n")
  }

  /** The lines of the slots in use, in slot order. */
  ghost function UserLines(slots: seq<Slot>): seq<byte> {
    if slots == [] then []
    else
      var last := slots[|slots| - 1];
      UserLines(slots[..|slots| - 1]) + if last.inUse then UserLine(last.username) else []
  }

  // ---------------------------------------------------------------- the class

  class UserTable {
    const slots: array<Slot>

    ghost predicate Valid()
      reads slots
    {
      && slots.Length == USERS_MAX && Unique(slots[..])
      && forall i | 0 <= i < slots.Length && slots[i].inUse :: 0 < |slots[i].username| <= FIELD_MAX
                                                               && 0 < |slots[i].password| <= FIELD_MAX
    }

    ghost function Contents(): UserMap
      reads slots
    {
      Entries(slots[..])
    }

    /** The static table before anything is added. */
    constructor ()
      ensures Valid() && fresh(slots) && Contents() == map[]
    {
      slots := new Slot[USERS_MAX](_ => EMPTY);
      new;
      NoEntries(slots[..]);
    }

    /** users_init_from_args */
    method Init(initial: seq<(Text, Text)>)
      requires slots.Length == USERS_MAX
      modifies slots
      ensures Valid() && Contents() == AddingAll(Take(initial, USERS_MAX))
      ensures Distinct(initial) ==> Configured(initial, Contents())
    {
      forall i | 0 <= i < slots.Length {
        slots[i] := EMPTY;
      }
      NoEntries(slots[..]);
      hide Entries, Adding, Unique, Configured;
      var i := 0;
      while i < |initial| && i < USERS_MAX
        invariant 0 <= i <= |initial| && i <= USERS_MAX
        invariant Valid() && Contents() == AddingAll(initial[..i])
      {
        var result := Add(Some(initial[i].0), Some(initial[i].1));
        assert initial[..i + 1][..i] == initial[..i];
        i := i + 1;
      }
      assert initial[..i] == Take(initial, USERS_MAX);
      if Distinct(initial) { DistinctPairsAreConfigured(initial); }
    }

    /** find_user_index */
    method FindUser(username: Text) returns (index: int)
      requires Valid()
      ensures if username in Contents() then 0 <= index < slots.Length && slots[index].inUse && slots[index].username == username
              else index == -1
    {
      EntriesAre(slots[..]);
      for i := 0 to USERS_MAX
        invariant forall k | 0 <= k < i :: !(slots[k].inUse && slots[k].username == username)
      {
        if slots[i].inUse && slots[i].username == username {
          return i;
        }
      }
      return -1;
    }

    /** find_free_index */
    method FindFree() returns (index: int)
      requires Valid()
      ensures if |Contents()| < USERS_MAX then 0 <= index < slots.Length && !slots[index].inUse else index == -1
    {
      hide Entries, InUse, Unique;
      EntriesCount(slots[..]);
      AllInUse(slots[..]);
      for i := 0 to USERS_MAX
        invariant forall k | 0 <= k < i :: slots[k].inUse
      {
        if !slots[i].inUse {
          return i;
        }
      }
      return -1;
    }

    /** users_count */
    method Count() returns (count: nat)
      requires Valid()
      ensures count == |Contents()| <= USERS_MAX
    {
      EntriesAre(slots[..]);
      AllInUse(slots[..]);
      count := 0;
      for i := 0 to USERS_MAX
        invariant count == InUse(slots[..i])
      {
        assert slots[..i + 1][..i] == slots[..i];
        if slots[i].inUse {
          count := count + 1;
        }
      }
      assert slots[..USERS_MAX] == slots[..];
    }

    /** users_credentials_are_valid */
    method CredentialsAreValid(username: seq<byte>, password: seq<byte>) returns (valid: bool)
      requires Valid()
      ensures valid == CredentialsValid(Contents(), username, password)
    {
      EntriesAre(slots[..]);
      for i := 0 to USERS_MAX
        invariant forall k | 0 <= k < i :: !(slots[k].inUse && slots[k].username == username && slots[k].password == password)
      {
        if slots[i].inUse && slots[i].username == username && slots[i].password == password {
          return true;
        }
      }
      return false;
    }

    /** users_add */
    method Add(username: Option<Text>, password: Option<Text>) returns (result: Result)
      requires Valid()
      modifies slots
      ensures Valid()
      ensures (Contents(), result) == Adding(old(Contents()), username, password)
      ensures result == Ok <==> Given(username) && Given(password) && username.value !in old(Contents()) && |old(Contents())| < 10
      ensures Contents() == if result == Ok then old(Contents())[username.value := password.value] else old(Contents())
      ensures result == Invalid <==> !Given(username) || !Given(password)
      ensures result == Exists <==> Given(username) && Given(password) && username.value in old(Contents())
      ensures result == Full <==> Given(username) && Given(password) && username.value !in old(Contents()) && |old(Contents())| >= 10
    {
      if !FieldIsValid(username) || !FieldIsValid(password) {
        return Invalid;
      }
      var index := FindUser(username.value);
      if index != -1 {
        return Exists;
      }
      index := FindFree();
      if index == -1 {
        return Full;
      }
      FillingAdds(slots[..], index, Slot(username.value, password.value, true));
      ghost var before := slots[..];
      slots[index] := Slot(username.value, password.value, true);
      assert slots[..] == before[index := Slot(username.value, password.value, true)];
      return Ok;
    }

    /** users_remove */
    method Remove(username: Option<Text>) returns (result: Result)
      requires Valid()
      modifies slots
      ensures Valid()
      ensures (Contents(), result) == Removing(old(Contents()), username)
      ensures result == Ok <==> Given(username) && username.value in old(Contents())
      ensures Contents() == if result == Ok then old(Contents()) - {username.value} else old(Contents())
      ensures result == Invalid <==> !Given(username)
      ensures result == NotFound <==> Given(username) && username.value !in old(Contents())
    {
      if !FieldIsValid(username) {
        return Invalid;
      }
      var index := FindUser(username.value);
      if index == -1 {
        return NotFound;
      }
      ClearingRemoves(slots[..], index);
      ghost var before := slots[..];
      slots[index] := EMPTY;
      assert slots[..] == before[index := EMPTY];
      return Ok;
    }

    /** users_format_list with a buffer of `size` bytes: the text the buffer holds up to its NUL, or nothing stored in
        a buffer without room. Each snprintf stores what fits and reports the full length of its text. */
    method FormatList(size: nat) returns (stored: Option<seq<byte>>)
      requires Valid()
      ensures stored == if size == 0 then None else Some(Take(CountLine(|Contents()|) + UserLines(slots[..]), size - 1))
    {
      hide Entries, CountLine, UserLine, UserLines, Unique, Take;
      if size == 0 {
        return None;
      }
      var count := Count();
      ghost var all := slots[..];
      ghost var head := CountLine(count);
      assert head + UserLines(all[..0]) == head by { NoLines(head, all); }
      var text := Take(CountLine(count), size - 1);
      var written := |CountLine(count)|;
      var i := 0;
      while i < USERS_MAX && written < size
        invariant 0 <= i <= USERS_MAX
        invariant written == |head + UserLines(all[..i])|
        invariant text == Take(head + UserLines(all[..i]), size - 1)
      {
        NextLine(head, all, i, size - 1);
        if slots[i].inUse {
          var line := UserLine(slots[i].username);
          text := text + Take(line, size - written - 1);
          written := written + |line|;
        }
        i := i + 1;
      }
      CutIsSame(head, all, i, size - 1);
      return Some(text);
    }
  }

  lemma NoLines(head: seq<byte>, slots: seq<Slot>)
    ensures head + UserLines(slots[..0]) == head
  {
    assert slots[..0] == [];
  }

  /** One more slot, cut to `n` bytes. */
  lemma NextLine(head: seq<byte>, slots: seq<Slot>, i: nat, n: nat)
    requires i < |slots| && |head + UserLines(slots[..i])| <= n
    ensures var a, b, line := head + UserLines(slots[..i]), head + UserLines(slots[..i + 1]), UserLine(slots[i].username);
            if slots[i].inUse then |b| == |a| + |line| && Take(a, n) + Take(line, n - |a|) == Take(b, n) else b == a
  {
    hide UserLine;
    var a, line := head + UserLines(slots[..i]), UserLine(slots[i].username);
    assert slots[..i + 1][..i] == slots[..i];
    if slots[i].inUse {
      assert head + UserLines(slots[..i + 1]) == a + line;
      TakeMore(a, line, n);
    }
  }

  /** Appending what still fits is cutting the whole. */
  lemma TakeMore(a: seq<byte>, b: seq<byte>, n: nat)
    requires |a| <= n
    ensures Take(a, n) + Take(b, n - |a|) == Take(a + b, n)
  {
  }

  lemma {:induction false} NoEntries(slots: seq<Slot>)
    requires forall i | 0 <= i < |slots| :: !slots[i].inUse
    ensures Entries(slots) == map[]
  {
    if slots != [] { NoEntries(slots[..|slots| - 1]); }
  }

  /** users_add on each pair in turn. */
  ghost function AddingAll(initial: seq<(Text, Text)>): UserMap {
    if initial == [] then map[]
    else Adding(AddingAll(initial[..|initial| - 1]), Some(initial[|initial| - 1].0), Some(initial[|initial| - 1].1)).0
  }

  lemma {:induction false} LinesAreAPrefix(slots: seq<Slot>, i: nat)
    requires i <= |slots|
    ensures UserLines(slots[..i]) <= UserLines(slots)
    decreases |slots| - i
  {
    if i == |slots| {
      assert slots[..i] == slots;
    } else {
      assert slots[..i + 1][..i] == slots[..i];
      LinesAreAPrefix(slots, i + 1);
    }
  }

  /** A listing that already overflows is not changed by the lines left out. */
  lemma CutIsSame(head: seq<byte>, slots: seq<Slot>, i: nat, n: nat)
    requires i <= |slots| && (i == |slots| || |head + UserLines(slots[..i])| > n)
    ensures Take(head + UserLines(slots[..i]), n) == Take(head + UserLines(slots), n)
  {
    LinesAreAPrefix(slots, i);
    if i == |slots| { assert slots[..i] == slots; }
  }

  // ---------------------------------------------------------------- what the map promises

  /** users_add, told without its code: the pair comes in exactly when both fields are given, the name is new and there are
      fewer than ten users; otherwise nothing changes, and the result says why. */
  lemma AddingIsExact(users: UserMap, name: Option<Text>, pass: Option<Text>)
    ensures var (after, result) := Adding(users, name, pass); var fine := Given(name) && Given(pass);
            && (result == Ok <==> fine && name.value !in users && |users| < 10)
            && after == (if result == Ok then users[name.value := pass.value] else users)
            && (result == Invalid <==> !fine)
            && (result == Exists <==> fine && name.value in users)
            && (result == Full <==> fine && name.value !in users && |users| >= 10)
  {
  }

  /** users_remove likewise. */
  lemma RemovingIsExact(users: UserMap, name: Option<Text>)
    ensures var (after, result) := Removing(users, name);
            && (result == Ok <==> Given(name) && name.value in users)
            && after == (if result == Ok then users - {name.value} else users)
            && (result == Invalid <==> !Given(name))
            && (result == NotFound <==> Given(name) && name.value !in users)
  {
  }

  /** Pairs that users_init_from_args can take all: up to ten, complete, with different names. */
  ghost predicate Distinct(pairs: seq<(Text, Text)>) {
    && |pairs| <= 10
    && (forall i | 0 <= i < |pairs| :: Given(Some(pairs[i].0)) && Given(Some(pairs[i].1)))
    && (forall i, j | 0 <= i < j < |pairs| :: pairs[i].0 != pairs[j].0)
  }

  ghost predicate HasName(pairs: seq<(Text, Text)>, name: seq<byte>) {
    exists i :: 0 <= i < |pairs| && pairs[i].0 == name
  }

  /** The users are those of the pairs. */
  ghost predicate Configured(pairs: seq<(Text, Text)>, users: UserMap) {
    && |users| == |pairs|
    && (forall i | 0 <= i < |pairs| :: pairs[i].0 in users && users[pairs[i].0] == pairs[i].1)
    && (forall name | name in users :: HasName(pairs, name))
  }

  lemma OneMorePair(pairs: seq<(Text, Text)>, users: UserMap, p: (Text, Text))
    requires Configured(pairs, users) && !HasName(pairs, p.0)
    ensures p.0 !in users && Configured(pairs + [p], users[p.0 := p.1])
  {
    var after, all := users[p.0 := p.1], pairs + [p];
    assert after.Keys == users.Keys + {p.0};
    forall i | 0 <= i < |all| ensures all[i].0 in after && after[all[i].0] == all[i].1 {
      if i < |pairs| { assert all[i] == pairs[i]; }
    }
    forall name | name in after ensures HasName(all, name) {
      if name == p.0 {
        assert all[|pairs|].0 == name;
      } else {
        var i :| 0 <= i < |pairs| && pairs[i].0 == name;
        assert all[i].0 == name;
      }
    }
  }

  /** All of them are configured afterwards, and nobody else. */
  lemma {:induction false} DistinctPairsAreConfigured(pairs: seq<(Text, Text)>)
    requires Distinct(pairs)
    ensures Configured(pairs, AddingAll(pairs))
  {
    if pairs != [] {
      var n := |pairs| - 1;
      var init := pairs[..n];
      DistinctPairsAreConfigured(init);
      assert !HasName(init, pairs[n].0);
      OneMorePair(init, AddingAll(init), pairs[n]);
      AddingIsExact(AddingAll(init), Some(pairs[n].0), Some(pairs[n].1));
      assert init + [pairs[n]] == pairs;
    }
  }

  /** At most ten users, whatever is added and removed. */
  lemma NeverMoreThanTen(users: UserMap, name: Option<Text>, pass: Option<Text>)
    requires |users| <= USERS_MAX
    ensures |Adding(users, name, pass).0| <= USERS_MAX && |Removing(users, name).0| <= USERS_MAX
  {
    if name.Some? && name.value in users { assert (users - {name.value}).Keys == users.Keys - {name.value}; }
  }

  /** A user that was added can be removed again, which undoes the addition. */
  lemma RemovingUndoesAdding(users: UserMap, name: Text, pass: Text)
    ensures var (after, result) := Adding(users, Some(name), Some(pass));
            result == Ok ==> CredentialsValid(after, name, pass) && Removing(after, Some(name)) == (users, Ok)
  {
    var (after, result) := Adding(users, Some(name), Some(pass));
    if result == Ok { assert after - {name} == users; }
  }
}
