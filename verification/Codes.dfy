/** The numbers on the wire and the errors they stand for, written out: reply codes of RFC 1928 for the errors of Linux, and
    which entries of an address list can be connected to. */
module Codes {
  import opened Basics
  import opened Socks5
  import opened Proxy

  // ---------------------------------------------------------------- reply codes

  /** Network unreachable; host unreachable, host down, no data; connection refused; timed out. */
  const ERRNO_REPLIES: map<int, int> := map[0 := 0, 101 := 3, 113 := 4, 112 := 4, 61 := 4, 111 := 5, 110 := 6]

  /** Try again; no such name, no address for it. */
  const LOOKUP_REPLIES: map<int, int> := map[0 := 0, -3 := 6, -2 := 4, -5 := 4]

  /** Everything else is a general failure. */
  ghost function Listed(table: map<int, int>, error: int): int {
    if error in table then table[error] else 1
  }

  lemma RepliesAreListed(error: int)
    ensures ReplyForErrno(error) == Listed(ERRNO_REPLIES, error)
    ensures ReplyForGaiError(error) == Listed(LOOKUP_REPLIES, error)
  {
  }

  /** The ten bytes of a CONNECT reply. */
  ghost function ConnectReply(code: int): seq<int> {
    [5, code, 0, 1, 0, 0, 0, 0, 0, 0]
  }

  lemma RepliesAreSpelt(code: byte)
    ensures RequestResponse(code) == ConnectReply(code)
    ensures GreetingResponse(code) == [5, code] && AuthResponse(code) == [1, code]
  {
  }

  // ---------------------------------------------------------------- usable addresses

  /** IPv4 or IPv6. */
  ghost predicate Connectable(a: Address) {
    a.family == 2 || a.family == 10
  }

  /** How many of the first `n` entries are connectable. */
  ghost function Before(list: seq<Address>, n: nat): nat
    requires n <= |list|
  {
    if n == 0 then 0 else Before(list, n - 1) + if Connectable(list[n - 1]) then 1 else 0
  }

  /** No entry is IPv4 or IPv6. */
  ghost predicate NothingUsable(list: seq<Address>) {
    forall i | 0 <= i < |list| :: list[i].family != 2 && list[i].family != 10
  }

  /** `picked` are the connectable entries of `list`, all of them and in order: each stands behind those before it. */
  ghost predicate Picked(list: seq<Address>, picked: seq<Address>) {
    && |picked| == Before(list, |list|)
    && forall i | 0 <= i < |list| && Connectable(list[i]) :: Before(list, i) < |picked| && picked[Before(list, i)] == list[i]
  }

  lemma {:induction false} BeforeFront(list: seq<Address>, n: nat)
    requires list != [] && 0 < n <= |list|
    ensures Before(list, n) == Before(list[1..], n - 1) + if Connectable(list[0]) then 1 else 0
  {
    if n > 1 {
      BeforeFront(list, n - 1);
      assert list[1..][n - 2] == list[n - 1];
    }
  }

  /** What the proxy tries of a list: its IPv4 and IPv6 entries, all of them and in order. */
  lemma {:induction false} FilterPicks(list: seq<Address>)
    ensures Picked(list, Filter(list))
  {
    if list != [] {
      FilterPicks(list[1..]);
      BeforeFront(list, |list|);
      var front := if Connectable(list[0]) then [list[0]] else [];
      forall i | 0 <= i < |list| && Connectable(list[i])
        ensures Before(list, i) < |Filter(list)| && Filter(list)[Before(list, i)] == list[i]
      {
        if i > 0 {
          BeforeFront(list, i);
          assert list[1..][i - 1] == list[i];
        }
      }
    }
  }

  lemma {:induction false} NoneBefore(list: seq<Address>, n: nat)
    requires n <= |list|
    ensures Before(list, n) == 0 <==> forall i | 0 <= i < n :: !Connectable(list[i])
  {
    if n > 0 { NoneBefore(list, n - 1); }
  }

  /** Nothing is tried exactly when no entry is IPv4 or IPv6. */
  lemma NothingPicked(list: seq<Address>)
    ensures Filter(list) == [] <==> NothingUsable(list)
  {
    FilterPicks(list);
    NoneBefore(list, |list|);
    hide Filter, Before;
  }
}
