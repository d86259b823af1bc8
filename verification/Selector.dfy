/** The selector's table (src/utils/selector.c): an array of items indexed by descriptor, the largest descriptor in
    use and the two descriptor sets handed to select, kept in step with a map from descriptor to registration. */
module Selector {
  import opened Basics
  import opened Proxy
  import opened Invariant
  import opened Teardown
  import opened Events

  /** FD_SETSIZE */
  const ITEMS_MAX_SIZE := 1024
  const FD_UNUSED := -1

  /** What a call reports. `OutOfBounds` is no status of the source: it stands for a call that leaves the table's memory
      or uses memory that moved, after which nothing is promised. */
  datatype Status = Success | OutOfMemory | MaxFd | IllegalArguments | FdInUse | OutOfBounds

  /** struct item: the descriptor, or FD_UNUSED, with handler, interest and data. */
  datatype Slot = Slot(fd: int, item: Item)

  const FREE := Slot(FD_UNUSED, Item(ClientItem, NOOP, 0))

  type Table = map<int, Item>

  predicate ValidFd(fd: int) {
    0 <= fd < ITEMS_MAX_SIZE
  }

  // ---------------------------------------------------------------- the calls on a map

  /** A call of the selector. Registering may have to grow the table, which may fail. Unregistering runs the item's close
      handler, whose own calls are `closing`. */
  datatype Call =
    | Add(fd: int, item: Item, allocates: bool)
    | Change(fd: int, interest: Interest)
    | Remove(fd: int, closing: seq<Call>)

  /** What the calls mean on a map, where there are no bounds. */
  ghost function Effect(t: Table, call: Call): Table
    decreases call, 0
  {
    match call
    case Add(fd, item, _) => if ValidFd(fd) && fd !in t then t[fd := item] else t
    case Change(fd, interest) => if ValidFd(fd) && fd in t then t[fd := t[fd].(interest := interest)] else t
    case Remove(fd, closing) => if ValidFd(fd) && fd in t then Effects(t, closing) - {fd} else t
  }

  ghost function Effects(t: Table, calls: seq<Call>): Table
    decreases calls, 1
  {
    if calls == [] then t else Effect(Effects(t, calls[..|calls| - 1]), calls[|calls| - 1])
  }

  function Size(calls: seq<Call>): nat {
    if calls == [] then 0
    else Size(calls[..|calls| - 1]) + 1 + match calls[|calls| - 1] case Remove(_, closing) => Size(closing) case _ => 0
  }

  /** No call, however deeply nested, adds or removes a descriptor that is being closed. */
  ghost predicate Clean(calls: seq<Call>, closing: set<int>) {
    forall i | 0 <= i < |calls| ::
      match calls[i]
      case Add(fd, _, _) => fd !in closing
      case Change(_, _) => true
      case Remove(fd, nested) => fd !in closing && Clean(nested, closing + {fd})
  }

  /** What a descriptor that is being closed keeps: it stays registered through whatever its close handler does. */
  lemma {:induction false} ClosingStays(t: Table, calls: seq<Call>, closing: set<int>)
    requires Clean(calls, closing)
    ensures forall fd | fd in closing :: fd in Effects(t, calls) <==> fd in t
    decreases Size(calls)
  {
    if calls != [] {
      var n := |calls| - 1;
      assert Clean(calls[..n], closing);
      ClosingStays(t, calls[..n], closing);
      var t' := Effects(t, calls[..n]);
      if calls[n].Remove? {
        ClosingStays(t', calls[n].closing, closing + {calls[n].fd});
      }
    }
  }

  /** Only valid descriptors are ever registered. */
  lemma {:induction false} OnlyValidFds(t: Table, calls: seq<Call>)
    requires forall fd | fd in t :: ValidFd(fd)
    ensures forall fd | fd in Effects(t, calls) :: ValidFd(fd)
    decreases Size(calls)
  {
    if calls != [] {
      var n := |calls| - 1;
      OnlyValidFds(t, calls[..n]);
      if calls[n].Remove? { OnlyValidFds(Effects(t, calls[..n]), calls[n].closing); }
    }
  }

  // ---------------------------------------------------------------- capacity

  function Pow2(k: nat): (p: nat)
    ensures p >= 1
  {
    if k == 0 then 1 else 2 * Pow2(k - 1)
  }

  /** How many bits `n` takes. */
  function Bits(n: nat): nat {
    if n == 0 then 0 else 1 + Bits(n / 2)
  }

  /** The size the table grows to for descriptor `n`. */
  function Capacity(n: nat): nat {
    Min(Pow2(Bits(n)), ITEMS_MAX_SIZE) + 1
  }

  /** It is the least power of two above `n`, capped, plus one. */
  lemma {:induction false} CapacityIsEnough(n: nat)
    ensures n < Pow2(Bits(n)) && (n > 0 ==> Pow2(Bits(n) - 1) <= n)
    ensures Capacity(n) <= ITEMS_MAX_SIZE + 1 && (n <= ITEMS_MAX_SIZE ==> n < Capacity(n))
  {
    if n > 1 { CapacityIsEnough(n / 2); }
  }

  /** next_capacity */
  method NextCapacity(n: nat) returns (c: nat)
    ensures c == Capacity(n)
  {
    var bits, tmp := 0, n;
    while tmp != 0
      invariant bits + Bits(tmp) == Bits(n)
    {
      tmp := tmp / 2;
      bits := bits + 1;
    }
    c := Min(Pow2(bits), ITEMS_MAX_SIZE) + 1;
  }

  // ---------------------------------------------------------------- the calls on a table of limited size

  /** A table of `size` items holding some registrations, or a table that was left out of bounds. */
  datatype State = Undefined | Holds(size: nat, table: Table)

  /** selector_register grows the table only for `fd > size`; the other calls index it without looking at its size. A close
      handler that makes the table grow, or leaves its own descriptor unregistered, has its caller use memory that moved
      or clear bit -1 of the descriptor sets. */
  ghost function Apply(st: State, call: Call): State
    decreases call, 0
  {
    if st.Undefined? then Undefined
    else
      match call
      case Add(fd, item, allocates) =>
        if !ValidFd(fd) || fd in st.table then st
        else if fd == st.size then Undefined
        else if fd < st.size then Holds(st.size, st.table[fd := item])
        else if !allocates then st
        else Holds(Capacity(fd), st.table[fd := item])
      case Change(fd, interest) =>
        if !ValidFd(fd) then st
        else if fd >= st.size then Undefined
        else if fd in st.table then Holds(st.size, st.table[fd := st.table[fd].(interest := interest)]) else st
      case Remove(fd, closing) =>
        if !ValidFd(fd) then st
        else if fd >= st.size then Undefined
        else if fd !in st.table then st
        else
          var closed := ApplyAll(st, closing);
          if closed.Undefined? || closed.size != st.size || fd !in closed.table then Undefined
          else Holds(closed.size, closed.table - {fd})
  }

  ghost function ApplyAll(st: State, calls: seq<Call>): State
    decreases calls, 1
  {
    if calls == [] then st else Apply(ApplyAll(st, calls[..|calls| - 1]), calls[|calls| - 1])
  }

  lemma {:induction false} UndefinedAfter(st: State, calls: seq<Call>, k: nat)
    requires k <= |calls| && ApplyAll(st, calls[..k]).Undefined?
    ensures ApplyAll(st, calls).Undefined?
    decreases |calls|
  {
    if k < |calls| {
      assert calls[..|calls| - 1][..k] == calls[..k];
      UndefinedAfter(st, calls[..|calls| - 1], k);
    } else {
      assert calls[..k] == calls;
    }
  }

  /** A table for all valid descriptors stays in bounds, and is the map, as long as no close handler adds or removes a
      descriptor that is being closed. */
  lemma {:induction false} FullTablesStayInBounds(size: nat, t: Table, calls: seq<Call>, closing: set<int>)
    requires size >= ITEMS_MAX_SIZE && Clean(calls, closing)
    ensures ApplyAll(Holds(size, t), calls) == Holds(size, Effects(t, calls))
    decreases Size(calls)
  {
    if calls != [] {
      var n := |calls| - 1;
      assert Clean(calls[..n], closing);
      FullTablesStayInBounds(size, t, calls[..n], closing);
      var t' := Effects(t, calls[..n]);
      if calls[n].Remove? {
        var fd, nested := calls[n].fd, calls[n].closing;
        FullTablesStayInBounds(size, t', nested, closing + {fd});
        ClosingStays(t', nested, closing + {fd});
      }
    }
  }

  /** What goes wrong otherwise: registering the descriptor that equals the size of a smaller table, and closing a
      descriptor whose handler unregisters it. */
  lemma SmallTablesDoNot(size: nat, t: Table, item: Item)
    requires size < ITEMS_MAX_SIZE && size !in t
    ensures Apply(Holds(size, t), Add(size, item, true)).Undefined?
    ensures forall fd | ValidFd(fd) && fd >= size :: Apply(Holds(size, t), Change(fd, NOOP)).Undefined?
    ensures forall fd | 0 <= fd < size && fd in t :: Apply(Holds(size, t), Remove(fd, [Remove(fd, [])])).Undefined?
  {
    forall fd | 0 <= fd < size && fd in t ensures Apply(Holds(size, t), Remove(fd, [Remove(fd, [])])).Undefined? {
      var nested := [Remove(fd, [])];
      assert nested[..0] == [];
      assert ApplyAll(Holds(size, t), nested) == Holds(size, t - {fd});
    }
  }

  // ---------------------------------------------------------------- the selector

  ghost function Readers(t: Table): set<int> {
    set fd | fd in t && t[fd].interest.read
  }

  ghost function Writers(t: Table): set<int> {
    set fd | fd in t && t[fd].interest.write
  }

  /** The largest descriptor in use, or 0. */
  ghost predicate IsMaxFd(m: int, t: Table) {
    if t == map[] then m == 0 else m in t && forall fd | fd in t :: fd <= m
  }

  /** The registrations that an array of items holds. */
  ghost function Registrations(slots: seq<Slot>): Table {
    map i | 0 <= i < |slots| && slots[i].fd != FD_UNUSED :: slots[i].item
  }

  lemma GrowingKeeps(slots: seq<Slot>, grown: seq<Slot>)
    requires slots <= grown && forall k | |slots| <= k < |grown| :: grown[k] == FREE
    ensures Registrations(grown) == Registrations(slots)
  {
  }

  lemma StoringPuts(slots: seq<Slot>, fd: nat, slot: Slot)
    requires fd < |slots|
    ensures Registrations(slots[fd := slot])
            == if slot.fd == FD_UNUSED then Registrations(slots) - {fd} else Registrations(slots)[fd := slot.item]
  {
  }

  /** What storing a registration does to the descriptor sets and to the largest descriptor. */
  lemma StoredSets(t: Table, fd: int, item: Item)
    ensures Readers(t[fd := item]) == Readers(t) - {fd} + (if item.interest.read then {fd} else {})
    ensures Writers(t[fd := item]) == Writers(t) - {fd} + (if item.interest.write then {fd} else {})
    ensures fd in t ==> forall m :: IsMaxFd(m, t) ==> IsMaxFd(m, t[fd := item])
  {
    if fd in t {
      forall m | IsMaxFd(m, t) ensures IsMaxFd(m, t[fd := item]) { assert t[fd := item].Keys == t.Keys; }
    }
  }

  class FdSelector {
    var fds: array<Slot>
    var maxFd: int
    var masterR: set<int>
    var masterW: set<int>

    ghost function Contents(): Table
      reads this, fds
    {
      Registrations(fds[..])
    }

    ghost function Abs(): State
      reads this, fds
    {
      Holds(fds.Length, Contents())
    }

    /** Used items sit at the index of their descriptor. */
    ghost predicate Placed()
      reads this, fds
    {
      && fds.Length <= ITEMS_MAX_SIZE + 1
      && forall i | 0 <= i < fds.Length :: fds[i].fd == FD_UNUSED || (fds[i].fd == i && ValidFd(i))
    }

    ghost predicate Valid()
      reads this, fds
    {
      && Placed()
      && IsMaxFd(maxFd, Contents())
      && masterR == Readers(Contents()) && masterW == Writers(Contents())
    }

    /** selector_new, for an allocation that succeeds. */
    constructor (initial: nat)
      requires initial <= ITEMS_MAX_SIZE
      ensures Valid() && fresh(fds) && Contents() == map[]
      ensures initial < fds.Length
      ensures initial == ITEMS_MAX_SIZE ==> fds.Length == ITEMS_MAX_SIZE + 1
    {
      fds := new Slot[0];
      maxFd, masterR, masterW := 0, {}, {};
      new;
      CapacityIsEnough(initial);
      var status := EnsureCapacity(initial, true);
    }

    /** ensure_capacity; `allocates` says whether calloc or realloc succeeds. */
    method EnsureCapacity(n: nat, allocates: bool) returns (status: Status)
      requires Valid()
      modifies this
      ensures Valid() && Contents() == old(Contents())
      ensures fds == old(fds) || fresh(fds)
      ensures fds.Length >= old(fds.Length) && maxFd == old(maxFd)
      ensures status == (if n < old(fds.Length) then Success
                         else if n > ITEMS_MAX_SIZE then MaxFd
                         else if allocates then Success else OutOfMemory)
      ensures status == Success ==> n < fds.Length <= ITEMS_MAX_SIZE + 1
      ensures if n < old(fds.Length) || status != Success then fds == old(fds) else fds.Length == Capacity(n)
    {
      if n < fds.Length {
        return Success;
      } else if n > ITEMS_MAX_SIZE {
        return MaxFd;
      } else if !allocates {
        return OutOfMemory;
      }
      var newSize := NextCapacity(n);
      CapacityIsEnough(n);
      var grown := new Slot[newSize](_ => FREE);
      for i := 0 to fds.Length
        modifies grown
        invariant grown[..i] == fds[..i]
        invariant forall k | i <= k < newSize :: grown[k] == FREE
      {
        grown[i] := fds[i];
      }
      GrowingKeeps(fds[..], grown[..]);
      hide Registrations;
      fds := grown;
      return Success;
    }

    /** items_max_fd */
    method ItemsMaxFd() returns (max: int)
      requires Placed() && 0 <= maxFd < fds.Length && forall fd | fd in Contents() :: fd <= maxFd
      ensures IsMaxFd(max, Contents())
    {
      max := 0;
      for i := 0 to maxFd + 1
        invariant forall fd | fd in Contents() && fd < i :: fd <= max
        invariant max == 0 || (max in Contents() && max < i)
        invariant 0 < i && 0 in Contents() ==> max in Contents()
        invariant max == 0 ==> forall fd | fd in Contents() && fd < i :: fd == 0
      {
        if fds[i].fd != FD_UNUSED && fds[i].fd > max {
          max := fds[i].fd;
        }
      }
    }

    /** items_update_fdset_for_fd, called with the item at index `fd`. */
    method UpdateFdSets(fd: nat)
      requires Placed() && fd < fds.Length && fds[fd].fd == fd
      modifies `masterR, `masterW
      ensures masterR == old(masterR) - {fd} + (if fds[fd].item.interest.read then {fd} else {})
      ensures masterW == old(masterW) - {fd} + (if fds[fd].item.interest.write then {fd} else {})
    {
      masterR, masterW := masterR - {fd}, masterW - {fd};
      if fds[fd].item.interest.read {
        masterR := masterR + {fd};
      }
      if fds[fd].item.interest.write {
        masterW := masterW + {fd};
      }
    }

    /** selector_register */
    method Register(fd: int, item: Item, allocates: bool) returns (status: Status)
      requires Valid()
      modifies this, fds
      ensures Valid() && (if fds.Length == old(fds.Length) then fds == old(fds) else fresh(fds) && fds.Length > old(fds.Length))
      ensures var r := Apply(old(Abs()), Add(fd, item, allocates));
              if r.Undefined? then status == OutOfBounds else status != OutOfBounds && Abs() == r
      ensures status == (if !ValidFd(fd) then IllegalArguments
                         else if fd == old(fds.Length) then OutOfBounds
                         else if fd > old(fds.Length) && !allocates then OutOfMemory
                         else if fd in old(Contents()) then FdInUse else Success)
      ensures Contents() == if status == Success then old(Contents())[fd := item] else old(Contents())
    {
      if !ValidFd(fd) {
        return IllegalArguments;
      }
      if fd > fds.Length {
        status := EnsureCapacity(fd, allocates);
        if status != Success {
          return;
        }
      }
      if fd == fds.Length {
        return OutOfBounds;
      }
      if fds[fd].fd != FD_UNUSED {
        return FdInUse;
      }
      Occupy(fd, item);
      return Success;
    }

    /** selector_register once a free item was found. */
    method Occupy(fd: nat, item: Item)
      requires Valid() && ValidFd(fd) && fd < fds.Length && fd !in Contents()
      modifies this, fds
      ensures Valid() && fds == old(fds)
      ensures Contents() == old(Contents())[fd := item]
    {
      StoringPuts(fds[..], fd, Slot(fd, item));
      hide Registrations;
      ghost var before := fds[..];
      fds[fd] := Slot(fd, item);
      assert fds[..] == before[fd := Slot(fd, item)];
      if fd > maxFd {
        maxFd := fd;
      }
      UpdateFdSets(fd);
    }

    /** selector_set_interest */
    method SetInterest(fd: int, interest: Interest) returns (status: Status)
      requires Valid()
      modifies this, fds
      ensures Valid() && fds == old(fds)
      ensures var r := Apply(old(Abs()), Change(fd, interest));
              if r.Undefined? then status == OutOfBounds else status != OutOfBounds && Abs() == r
      ensures status == (if !ValidFd(fd) then IllegalArguments
                         else if fd >= fds.Length then OutOfBounds
                         else if fd in old(Contents()) then Success else IllegalArguments)
      ensures Contents() == if status == Success then old(Contents())[fd := old(Contents())[fd].(interest := interest)] else old(Contents())
    {
      if !ValidFd(fd) {
        return IllegalArguments;
      }
      if fd >= fds.Length {
        return OutOfBounds;
      }
      if fds[fd].fd == FD_UNUSED {
        return IllegalArguments;
      }
      Rearm(fd, interest);
      return Success;
    }

    /** selector_set_interest for an item in use. */
    method Rearm(fd: nat, interest: Interest)
      requires Valid() && fd in Contents()
      modifies this, fds
      ensures Valid() && fds == old(fds)
      ensures Contents() == old(Contents())[fd := old(Contents())[fd].(interest := interest)]
    {
      ghost var before := fds[..];
      ghost var slot := Slot(fd, fds[fd].item.(interest := interest));
      StoringPuts(fds[..], fd, slot);
      StoredSets(Contents(), fd, slot.item);
      hide Registrations, Readers, Writers, IsMaxFd;
      fds[fd] := fds[fd].(item := fds[fd].item.(interest := interest));
      assert fds[..] == before[fd := slot];
      UpdateFdSets(fd);
    }

    /** selector_unregister_fd, with the calls its close handler makes. The item is found before they run. */
    method Unregister(fd: int, closing: seq<Call>) returns (status: Status)
      requires Valid()
      modifies this, fds
      ensures Valid() && (if fds.Length == old(fds.Length) then fds == old(fds) else fresh(fds) && fds.Length > old(fds.Length))
      ensures var r := Apply(old(Abs()), Remove(fd, closing));
              if r.Undefined? then status == OutOfBounds
              else Abs() == r && status == if ValidFd(fd) && fd in old(Contents()) then Success else IllegalArguments
      ensures closing == [] && fd in old(Contents()) ==> status == Success && Contents() == old(Contents()) - {fd}
      decreases Size(closing), 1
    {
      if !ValidFd(fd) {
        return IllegalArguments;
      }
      if fd >= fds.Length {
        return OutOfBounds;
      }
      if fds[fd].fd == FD_UNUSED {
        return IllegalArguments;
      }
      var items := fds;
      var defined := Perform(closing);
      if !defined || fds != items || items[fd].fd == FD_UNUSED {
        return OutOfBounds;
      }
      Clear(fd);
      return Success;
    }

    /** What selector_unregister_fd does after the close handler. */
    method Clear(fd: nat)
      requires Valid() && fd in Contents()
      modifies this, fds
      ensures Valid() && fds == old(fds)
      ensures Contents() == old(Contents()) - {fd}
    {
      ghost var before := fds[..];
      var muted := Slot(fd, fds[fd].item.(interest := NOOP));
      fds[fd] := muted;
      UpdateFdSets(fd);
      fds[fd] := FREE;
      assert fds[..] == before[fd := FREE];
      StoringPuts(before, fd, FREE);
      maxFd := ItemsMaxFd();
    }

    /** Any calls, one after the other, with whatever their close handlers call, as long as they stay in bounds. */
    method Perform(calls: seq<Call>) returns (defined: bool)
      requires Valid()
      modifies this, fds
      ensures Valid() && (if fds.Length == old(fds.Length) then fds == old(fds) else fresh(fds) && fds.Length > old(fds.Length))
      ensures var r := ApplyAll(old(Abs()), calls); if defined then Abs() == r else r.Undefined?
      decreases Size(calls), 0
    {
      hide Valid, Abs, Apply;
      for k := 0 to |calls|
        invariant Valid() && (if fds.Length == old(fds.Length) then fds == old(fds) else fresh(fds) && fds.Length > old(fds.Length))
        invariant Abs() == ApplyAll(old(Abs()), calls[..k])
      {
        SizeOf(calls, k);
        assert calls[..k + 1][..k] == calls[..k];
        var status;
        match calls[k] {
          case Add(fd, item, allocates) => status := Register(fd, item, allocates);
          case Change(fd, interest) => status := SetInterest(fd, interest);
          case Remove(fd, nested) => status := Unregister(fd, nested);
        }
        if status == OutOfBounds {
          UndefinedAfter(old(Abs()), calls, k + 1);
          return false;
        }
      }
      assert calls[..|calls|] == calls;
      return true;
    }
  }

  lemma {:induction false} SizeOf(calls: seq<Call>, k: nat)
    requires k < |calls|
    ensures calls[k].Remove? ==> Size(calls[k].closing) < Size(calls)
  {
    if k < |calls| - 1 {
      SizeOf(calls[..|calls| - 1], k);
    }
  }

  // ---------------------------------------------------------------- the proxy's use of it

  /** The calls client_close makes: unregister the target, if there is one. */
  ghost function ClosingCalls(s: Session): seq<Call> {
    if s.targetFd.Some? then [Remove(s.targetFd.value, [])] else []
  }

  lemma NestedRemoval(t: Table, s: Session)
    requires s.clientFd.Some? && s.clientFd.value in t && ValidFd(s.clientFd.value)
    requires s.targetFd.Some? ==> s.targetFd.value in t && ValidFd(s.targetFd.value) && s.targetFd != s.clientFd
    ensures Clean(ClosingCalls(s), {s.clientFd.value as int})
    ensures Effect(t, Remove(s.clientFd.value, ClosingCalls(s))) == t - Descriptors(s)
  {
    var c: int := s.clientFd.value;
    if s.targetFd.Some? {
      var calls := ClosingCalls(s);
      assert calls[..0] == [];
      assert Effects(t, calls) == t - {calls[0].fd};
      assert t - {calls[0].fd} - {c} == t - Descriptors(s);
    } else {
      assert t - {c} == t - Descriptors(s);
    }
  }

  lemma AnchoredDescriptors(w: World, sid: Sid)
    requires Linkage(w) && sid in w.heap
    ensures var s := w.heap[sid];
            && s.clientFd.Some? && s.clientFd.value in w.table && ValidFd(s.clientFd.value)
            && (s.targetFd.Some? ==> s.targetFd.value in w.table && ValidFd(s.targetFd.value) && s.targetFd != s.clientFd)
  {
    var s := w.heap[sid];
    assert Anchored(w, sid);
    assert Owned(w, s.clientFd.value) && (s.targetFd.Some? ==> Owned(w, s.targetFd.value));
  }

  /** The registrations of the proxy are a selector's: whenever a session's client descriptor is unregistered, its
      close handler's nested unregistration is one the table can take, and what is left is what the map has left. */
  lemma SessionsCloseCleanly(events: seq<Event>, sid: Sid)
    ensures var w := Run(START, events);
            sid in w.heap ==>
              var s := w.heap[sid];
              && s.clientFd.Some? && Clean(ClosingCalls(s), {s.clientFd.value as int})
              && Unregister(w, s.clientFd.value).table == Effect(w.table, Remove(s.clientFd.value, ClosingCalls(s)))
  {
    Reachable(events);
    var w := Run(START, events);
    hide Run, Awaited, Linkage, Resolution, Accounts, HistOk, SessionOk, Unregister, Clean, Effect, ClosingCalls, Descriptors;
    if sid in w.heap {
      AnchoredDescriptors(w, sid);
      NestedRemoval(w.table, w.heap[sid]);
      ClientCloseIs(w, sid, w.heap[sid].clientFd.value, w);
    }
  }
}
