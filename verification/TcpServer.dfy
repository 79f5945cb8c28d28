/**
 The server's bookkeeping (src/tcp_server.cc, src/eventloop_threadpool.cc): generated connection
 names, the table of connections keyed by them, and the round robin over the pool's loops.
 */
module ConnectionNames {

  const INT_MAX: nat := 0x7fff_ffff
  const NAME_BUF: nat := 64   // char buf[64] in newConnection: 63 characters and a terminator

  function Digit(d: nat): char
    requires d < 10
  {
    ['0', '1', '2', '3', '4', '5', '6', '7', '8', '9'][d]
  }

  /** "%d" of a non-negative number. */
  function Decimal(n: nat): (s: string)
    ensures s != []
  {
    if n < 10 then [Digit(n)] else Decimal(n / 10) + [Digit(n % 10)]
  }

  function Pow10(k: nat): nat {
    if k == 0 then 1 else 10 * Pow10(k - 1)
  }

  lemma {:induction false} DecimalInjective(a: nat, b: nat)
    requires Decimal(a) == Decimal(b)
    ensures a == b
  {
    var s, t := Decimal(a), Decimal(b);
    assert s[|s| - 1] == Digit(a % 10) && t[|t| - 1] == Digit(b % 10);
    if a >= 10 && b >= 10 {
      assert s[..|s| - 1] == Decimal(a / 10) && t[..|t| - 1] == Decimal(b / 10);
      DecimalInjective(a / 10, b / 10);
    }
  }

  /** What a reader makes of a decimal number. */
  function Parse(s: string): int {
    if s == [] then 0 else 10 * Parse(s[..|s| - 1]) + (s[|s| - 1] as int - '0' as int)
  }

  lemma {:induction false} DecimalParses(n: nat)
    ensures Parse(Decimal(n)) == n
  {
    if n < 10 {
      assert Parse([Digit(n)]) == 10 * Parse([]) + n by {
        assert [Digit(n)][..0] == [];
      }
    } else {
      DecimalParses(n / 10);
      assert Decimal(n)[..|Decimal(n)| - 1] == Decimal(n / 10);
    }
  }

  lemma {:induction false} DecimalLength(n: nat, k: nat)
    requires 0 < k
    ensures n < Pow10(k) ==> |Decimal(n)| <= k
    ensures n >= Pow10(k - 1) ==> |Decimal(n)| >= k
  {
    if n >= 10 {
      if k == 1 {
        assert Pow10(1) == 10 * Pow10(0) == 10;
      } else {
        assert Pow10(k) == 10 * Pow10(k - 1) && Pow10(k - 1) == 10 * Pow10(k - 2);
        DecimalLength(n / 10, k - 1);
      }
    } else if k > 1 {
      assert Pow10(k - 1) == 10 * Pow10(k - 2) >= 10 by { Pow10Positive(k - 2); }
    }
  }

  lemma {:induction false} Pow10Positive(k: nat)
    ensures Pow10(k) >= 1
  {
    if k > 0 {
      Pow10Positive(k - 1);
    }
  }

  function Prefix(s: string, n: nat): string {
    if |s| <= n then s else s[..n]
  }

  /** newConnection's name: snprintf truncates what it formats to the buffer. */
  function Name(server: string, ipPort: string, id: nat): string {
    server + Prefix("-" + ipPort + "#" + Decimal(id), NAME_BUF - 1)
  }

  ghost predicate Distinct(server: string, ipPort: string) {
    forall a, b :: 1 <= a <= INT_MAX && 1 <= b <= INT_MAX && Name(server, ipPort, a) == Name(server, ipPort, b) ==> a == b
  }

  lemma IdFits(id: nat)
    requires id <= INT_MAX
    ensures |Decimal(id)| <= 10
  {
    assert Pow10(10) == 10_000_000_000 by {
      assert Pow10(5) == 100_000;
      assert Pow10(8) == 100_000_000;
    }
    DecimalLength(id, 10);
  }

  /** While nothing is cut off a name reads as the server's name, the address and the id. */
  lemma NameReads(server: string, ipPort: string, id: nat)
    requires |ipPort| <= 51 && id <= INT_MAX
    ensures Name(server, ipPort, id) == server + "-" + ipPort + "#" + Decimal(id) && Parse(Decimal(id)) == id
  {
    IdFits(id);
    DecimalParses(id);
    assert server + ("-" + ipPort + "#" + Decimal(id)) == server + "-" + ipPort + "#" + Decimal(id);
  }

  lemma NamesDiffer(server: string, ipPort: string, a: nat, b: nat)
    requires |ipPort| <= 51 && a <= INT_MAX && b <= INT_MAX
    requires Name(server, ipPort, a) == Name(server, ipPort, b)
    ensures a == b
  {
    IdFits(a);
    IdFits(b);
    var head := "-" + ipPort + "#";
    var s, t := head + Decimal(a), head + Decimal(b);
    assert Name(server, ipPort, a) == server + s && Name(server, ipPort, b) == server + t;
    assert (server + s)[|server|..] == s && (server + t)[|server|..] == t;
    assert s[|head|..] == Decimal(a) && t[|head|..] == Decimal(b);
    DecimalInjective(a, b);
  }

  /** Names of all connection ids an int can count are pairwise distinct exactly when the listening
      address leaves room for ten digits in the buffer (an IPv4 address and port take at most 21). */
  lemma NamesDistinctIff(server: string, ipPort: string)
    ensures Distinct(server, ipPort) <==> |ipPort| <= 51
  {
    if |ipPort| <= 51 {
      forall a, b | 1 <= a <= INT_MAX && 1 <= b <= INT_MAX && Name(server, ipPort, a) == Name(server, ipPort, b)
        ensures a == b
      {
        NamesDiffer(server, ipPort, a, b);
      }
    } else {
      TruncatedNamesCollide(server, ipPort);
    }
  }

  /** The buffer is what bounds the address: InetAddress writes at most 21 characters, so that no server
      meets this case, and a longer address text would. */
  lemma TruncatedNamesCollide(server: string, ipPort: string)
    requires |ipPort| > 51
    ensures Name(server, ipPort, 1_000_000_000) == Name(server, ipPort, 1_000_000_001)
  {
    var stem := Decimal(100_000_000);
    assert Pow10(8) == 100_000_000 by {
      assert Pow10(4) == 10_000;
    }
    DecimalLength(100_000_000, 9);
    var head := "-" + ipPort + "#";
    var s, t := head + Decimal(1_000_000_000), head + Decimal(1_000_000_001);
    assert Decimal(1_000_000_000) == stem + ['0'] && Decimal(1_000_000_001) == stem + ['1'];
    assert s == head + stem + ['0'] && t == head + stem + ['1'];
    assert s[..NAME_BUF - 1] == (head + stem)[..NAME_BUF - 1] == t[..NAME_BUF - 1];
  }
}

module TcpServerObject {
  import opened ConnectionNames

  type ConnId = nat
  type LoopId = nat

  /** `table` holds exactly the connections of `live`, each under its generated name. */
  ghost predicate TableOf(server: string, ipPort: string, table: map<string, ConnId>, live: set<ConnId>) {
    && (forall c :: c in live ==> Name(server, ipPort, c) in table && table[Name(server, ipPort, c)] == c)
    && (forall k :: k in table ==> table[k] in live && k == Name(server, ipPort, table[k]))
  }

  ghost predicate IntIds(live: set<ConnId>) {
    forall c :: c in live ==> c <= INT_MAX
  }

  /** Adding a connection overwrites no other entry; removing one removes its own entry only. */
  lemma TableChanges(server: string, ipPort: string, table: map<string, ConnId>, live: set<ConnId>, c: ConnId)
    requires |ipPort| <= 51 && IntIds(live) && c <= INT_MAX && TableOf(server, ipPort, table, live)
    ensures var k := Name(server, ipPort, c);
            TableOf(server, ipPort, table[k := c], live + {c})
            && TableOf(server, ipPort, table - {k}, live - {c})
            && (c !in live ==> k !in table)
  {
    var k := Name(server, ipPort, c);
    forall d | d in live && Name(server, ipPort, d) == k ensures d == c {
      NamesDiffer(server, ipPort, d, c);
    }
  }

  class TcpServer {
    const name: string
    const ipPort: string
    const pool: EventLoopThreadPool
    var nextConnId: nat
    var connections: map<string, ConnId>

    ghost var accepted: set<ConnId>
    ghost var removed: set<ConnId>

    /** The table holds exactly the accepted connections not yet removed, each under its own name. */
    ghost predicate Valid()
      reads this
    {
      && |ipPort| <= 51 && 1 <= nextConnId <= INT_MAX
      && (forall c :: c in accepted <==> 1 <= c < nextConnId)
      && removed <= accepted
      && TableOf(name, ipPort, connections, accepted - removed)
    }

    constructor (name: string, ipPort: string, pool: EventLoopThreadPool)
      requires |ipPort| <= 51
      ensures Valid() && accepted == {} && this.pool == pool && this.name == name && this.ipPort == ipPort
    {
      this.name, this.ipPort, this.pool := name, ipPort, pool;
      nextConnId, connections := 1, map[];
      accepted, removed := {}, {};
    }

    /** newConnection: the next id, the next loop of the pool, and a table entry that overwrites none. */
    method NewConnection() returns (conn: ConnId, loop: LoopId)
      requires Valid() && nextConnId < INT_MAX && pool.Valid()
      modifies this, pool
      ensures Valid() && pool.Valid()
      ensures conn == old(nextConnId) && nextConnId == old(nextConnId) + 1
      ensures accepted == old(accepted) + {conn} && removed == old(removed)
      ensures Name(name, ipPort, conn) !in old(connections)
      ensures connections == old(connections)[Name(name, ipPort, conn) := conn]
      ensures loop == old(pool.Next()) && pool.calls == old(pool.calls) + 1 && pool.loops == old(pool.loops)
    {
      loop := pool.GetNextLoop();
      conn := nextConnId;
      TableChanges(name, ipPort, connections, accepted - removed, conn);
      assert accepted + {conn} - removed == (accepted - removed) + {conn};
      nextConnId := nextConnId + 1;
      connections := connections[Name(name, ipPort, conn) := conn];
      accepted := accepted + {conn};
    }

    /** removeConnectionInLoop: erase by name.  A connection closed twice is erased twice. */
    method RemoveConnectionInLoop(conn: ConnId)
      requires Valid() && conn in accepted
      modifies this`connections, this`removed
      ensures Valid() && removed == old(removed) + {conn}
      ensures conn in old(removed) ==> connections == old(connections)
    {
      TableChanges(name, ipPort, connections, accepted - removed, conn);
      assert accepted - (removed + {conn}) == (accepted - removed) - {conn};
      assert conn in removed ==> Name(name, ipPort, conn) !in connections;
      connections := connections - {Name(name, ipPort, conn)};
      removed := removed + {conn};
    }

    /** The destructor's loop over the table, in whatever order the hash table has: connDestory is
        queued once for every live connection and for no other. */
    method Destruct() returns (destroyed: seq<ConnId>)
      requires Valid()
      modifies this`connections
      ensures connections == map[]
      ensures forall c :: c in destroyed <==> c in accepted - removed
      ensures forall i, j :: 0 <= i < j < |destroyed| ==> destroyed[i] != destroyed[j]
    {
      destroyed := [];
      ghost var live := accepted - removed;
      while connections != map[]
        invariant live <= accepted - removed
        invariant TableOf(name, ipPort, connections, live)
        invariant forall c :: c in destroyed <==> c in accepted - removed && c !in live
        invariant forall i, j :: 0 <= i < j < |destroyed| ==> destroyed[i] != destroyed[j]
        decreases live
      {
        assert connections.Keys != {};
        var k :| k in connections.Keys;
        var c := connections[k];
        assert c in live && Name(name, ipPort, c) == k;
        TableChanges(name, ipPort, connections, live, c);
        destroyed := destroyed + [c];
        connections := connections - {k};
        live := live - {c};
      }
      assert live == {};
    }
  }

  // ----- round robin -----

  class EventLoopThreadPool {
    const baseLoop: LoopId
    var loops: seq<LoopId>
    var next: nat
    ghost var calls: nat   // of GetNextLoop since start()

    ghost predicate Valid()
      reads this
    {
      if loops == [] then next == 0 else next == calls % |loops|
    }

    /** The loop the next call will return: loop `calls mod n` of a started pool. */
    ghost function Next(): LoopId
      reads this
    {
      if loops == [] then baseLoop else loops[calls % |loops|]
    }

    constructor (baseLoop: LoopId)
      ensures Valid() && loops == [] && this.baseLoop == baseLoop && calls == 0
    {
      this.baseLoop := baseLoop;
      loops, next, calls := [], 0, 0;
    }

    /** start(): one new loop per thread, in order. */
    method Start(threadLoops: seq<LoopId>)
      requires Valid() && loops == []
      modifies this
      ensures Valid() && loops == threadLoops && calls == 0
    {
      calls := 0;
      for i := 0 to |threadLoops|
        invariant loops == threadLoops[..i] && next == 0 && calls == 0
      {
        loops := loops + [threadLoops[i]];
      }
    }

    method GetNextLoop() returns (loop: LoopId)
      requires Valid()
      modifies this`next, this`calls
      ensures Valid() && loop == old(Next()) && calls == old(calls) + 1
    {
      loop := baseLoop;
      if loops != [] {
        loop := loops[next];
        NextModulo(calls, |loops|);
        next := (next + 1) % |loops|;
      }
      calls := calls + 1;
    }
  }

  lemma NextModulo(k: nat, n: nat)
    requires 0 < n
    ensures (k + 1) % n == (k % n + 1) % n
    ensures (k + 1) % n == if k % n == n - 1 then 0 else k % n + 1
    ensures (k + 1) / n == k / n + if k % n == n - 1 then 1 else 0
  {
    var q, r := k / n, k % n;
    assert k == q * n + r;
    if r == n - 1 {
      assert (q + 1) * n == q * n + n;
      QuotientUnique(k + 1, n, q + 1, 0);
      QuotientUnique(r + 1, n, 1, 0);
    } else {
      QuotientUnique(k + 1, n, q, r + 1);
      QuotientUnique(r + 1, n, 0, r + 1);
    }
  }

  lemma QuotientUnique(x: nat, n: nat, q: nat, r: nat)
    requires 0 < n && r < n && x == q * n + r
    ensures x / n == q && x % n == r
  {
    var d: int := x / n - q;
    var m: int := n;
    assert x == (x / n) * n + x % n;
    assert d * m == (x / n) * n - q * n;
    assert d >= 1 ==> d * m >= m;
    assert d <= -1 ==> d * m <= -m;
  }

  /** How many of the first k calls returned loop i of n. */
  ghost function Turns(i: nat, n: nat, k: nat): nat
    requires 0 < n
  {
    if k == 0 then 0 else Turns(i, n, k - 1) + if (k - 1) % n == i then 1 else 0
  }

  /** After k calls each of n loops has been returned floor(k/n) times, and those before `next` once
      more: no two loops differ by more than one. */
  lemma {:induction false} RoundRobinIsFair(i: nat, n: nat, k: nat)
    requires i < n
    ensures Turns(i, n, k) == k / n + if i < k % n then 1 else 0
  {
    if k > 0 {
      RoundRobinIsFair(i, n, k - 1);
      NextModulo(k - 1, n);
    }
  }
}
