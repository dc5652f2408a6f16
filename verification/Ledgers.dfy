/** Exact capacity accounting: every online byte of a region is in exactly one of five buckets. */
module Ledgers {
  import opened Words

  datatype Bucket = Free | Reserved | Committed | Draining | Unavailable

  datatype Ledger = Ledger(
    total: int, online: int, free: int, reserved: int, committed: int, draining: int, unavailable: int)
  {
    function Get(b: Bucket): int {
      match b
      case Free => free
      case Reserved => reserved
      case Committed => committed
      case Draining => draining
      case Unavailable => unavailable
    }

    function Add(b: Bucket, n: int): Ledger {
      match b
      case Free => this.(free := free + n)
      case Reserved => this.(reserved := reserved + n)
      case Committed => this.(committed := committed + n)
      case Draining => this.(draining := draining + n)
      case Unavailable => this.(unavailable := unavailable + n)
    }

    /** The closure invariant, with every quantity a 64-bit unsigned one. */
    predicate Closed() {
      && 0 <= free && 0 <= reserved && 0 <= committed && 0 <= draining && 0 <= unavailable
      && free + reserved + committed + draining + unavailable == online
      && online <= total <= U64_MAX
    }
  }

  function Empty(total: int): Ledger { Ledger(total, 0, 0, 0, 0, 0, 0) }

  /** What a ledger operation leaves behind and whether it reported success. */
  datatype Move = Move(ledger: Ledger, ok: bool)

  /** The shape all eleven guarded moves share: take `n` from one bucket, put it in another. */
  function Transfer(l: Ledger, from: Bucket, to: Bucket, n: int): Move {
    if n > l.Get(from) || l.Get(to) > U64_MAX - n then Move(l, false)
    else
      var moved := l.Add(from, -n).Add(to, n);
      Move(moved, moved.Closed())
  }

  function SetOnline(l: Ledger, online: int): Move {
    var obligations := l.reserved + l.committed + l.draining + l.unavailable;
    if online > l.total || obligations > U64_MAX || online < obligations then Move(l, false)
    else
      var changed := l.(online := online, free := online - obligations);
      Move(changed, changed.Closed())
  }

  /** On a closed ledger a move succeeds exactly when the source bucket holds enough; it keeps closure. */
  lemma TransferFromClosed(l: Ledger, from: Bucket, to: Bucket, n: int)
    requires l.Closed() && 0 <= n && from != to
    ensures Transfer(l, from, to, n).ok <==> n <= l.Get(from)
    ensures Transfer(l, from, to, n).ok ==> Transfer(l, from, to, n).ledger == l.Add(from, -n).Add(to, n)
    ensures !Transfer(l, from, to, n).ok ==> Transfer(l, from, to, n).ledger == l
    ensures Transfer(l, from, to, n).ledger.Closed()
  {
  }

  lemma SetOnlineFromClosed(l: Ledger, online: int)
    requires l.Closed() && 0 <= online
    ensures SetOnline(l, online).ledger.Closed()
    ensures SetOnline(l, online).ok <==> l.online - l.free <= online <= l.total
    ensures !SetOnline(l, online).ok ==> SetOnline(l, online).ledger == l
  {
  }

  /**
   The ledger object itself. Each method is the program's code for that move, with its undo on
   overflow and its final check of the closure invariant.
   */
  class CapacityLedger {
    var total: U64
    var online: U64
    var free: U64
    var reserved: U64
    var committed: U64
    var draining: U64
    var unavailable: U64

    function View(): Ledger
      reads this
    {
      Ledger(total, online, free, reserved, committed, draining, unavailable)
    }

    constructor (totalBytes: U64)
      ensures View() == Empty(totalBytes)
    {
      total := totalBytes;
      online, free, reserved, committed, draining, unavailable := 0, 0, 0, 0, 0, 0;
    }

    /** The overflow-safe sum of the buckets, compared with the online capacity. */
    method Invariant() returns (ok: bool)
      ensures ok == View().Closed()
    {
      var values: seq<U64> := [free, reserved, committed, draining, unavailable];
      var sum: U64 := 0;
      for i := 0 to 5
        invariant sum == Prefix(values, i)
        invariant values == [free, reserved, committed, draining, unavailable]
      {
        if values[i] > U64_MAX - sum {
          PrefixGrows(values, i + 1, 5);
          FiveBuckets(values);
          return false;
        }
        sum := sum + values[i];
      }
      FiveBuckets(values);
      return sum == online && online <= total;
    }

    method SetOnlineBytes(onlineBytes: U64) returns (ok: bool)
      modifies this
      ensures Move(View(), ok) == SetOnline(old(View()), onlineBytes)
    {
      if onlineBytes > total { return false; }
      var values: seq<U64> := [reserved, committed, draining, unavailable];
      var obligations: U64 := 0;
      for i := 0 to 4
        invariant obligations == Prefix(values, i)
        invariant View() == old(View())
      {
        if values[i] > U64_MAX - obligations {
          PrefixGrows(values, i + 1, 4);
          FourBuckets(values);
          return false;
        }
        obligations := obligations + values[i];
      }
      FourBuckets(values);
      if onlineBytes < obligations { return false; }
      online := onlineBytes;
      free := onlineBytes - obligations;
      ok := Invariant();
    }

    method Reserve(n: U64) returns (ok: bool)
      modifies this
      ensures Move(View(), ok) == Transfer(old(View()), Free, Reserved, n)
    {
      if n > free { return false; }
      free := free - n;
      if reserved > U64_MAX - n { free := free + n; return false; }
      reserved := reserved + n;
      ok := Invariant();
    }

    method Commit(n: U64) returns (ok: bool)
      modifies this
      ensures Move(View(), ok) == Transfer(old(View()), Reserved, Committed, n)
    {
      if n > reserved { return false; }
      reserved := reserved - n;
      if committed > U64_MAX - n { reserved := reserved + n; return false; }
      committed := committed + n;
      ok := Invariant();
    }

    method Release(n: U64) returns (ok: bool)
      modifies this
      ensures Move(View(), ok) == Transfer(old(View()), Reserved, Free, n)
    {
      if n > reserved { return false; }
      reserved := reserved - n;
      if free > U64_MAX - n { reserved := reserved + n; return false; }
      free := free + n;
      ok := Invariant();
    }

    method Complete(n: U64) returns (ok: bool)
      modifies this
      ensures Move(View(), ok) == Transfer(old(View()), Committed, Free, n)
    {
      if n > committed { return false; }
      committed := committed - n;
      if free > U64_MAX - n { committed := committed + n; return false; }
      free := free + n;
      ok := Invariant();
    }

    method BeginDrain(n: U64) returns (ok: bool)
      modifies this
      ensures Move(View(), ok) == Transfer(old(View()), Free, Draining, n)
    {
      if n > free { return false; }
      free := free - n;
      if draining > U64_MAX - n { free := free + n; return false; }
      draining := draining + n;
      ok := Invariant();
    }

    method EndDrain(n: U64) returns (ok: bool)
      modifies this
      ensures Move(View(), ok) == Transfer(old(View()), Draining, Unavailable, n)
    {
      if n > draining { return false; }
      draining := draining - n;
      if unavailable > U64_MAX - n { draining := draining + n; return false; }
      unavailable := unavailable + n;
      ok := Invariant();
    }

    method CancelDrain(n: U64) returns (ok: bool)
      modifies this
      ensures Move(View(), ok) == Transfer(old(View()), Draining, Free, n)
    {
      if n > draining { return false; }
      draining := draining - n;
      if free > U64_MAX - n { draining := draining + n; return false; }
      free := free + n;
      ok := Invariant();
    }

    method MarkUnavailable(n: U64) returns (ok: bool)
      modifies this
      ensures Move(View(), ok) == Transfer(old(View()), Free, Unavailable, n)
    {
      if n > free { return false; }
      free := free - n;
      if unavailable > U64_MAX - n { free := free + n; return false; }
      unavailable := unavailable + n;
      ok := Invariant();
    }

    method Restore(n: U64) returns (ok: bool)
      modifies this
      ensures Move(View(), ok) == Transfer(old(View()), Unavailable, Free, n)
    {
      if n > unavailable { return false; }
      unavailable := unavailable - n;
      if free > U64_MAX - n { unavailable := unavailable + n; return false; }
      free := free + n;
      ok := Invariant();
    }

    method FenceReserved(n: U64) returns (ok: bool)
      modifies this
      ensures Move(View(), ok) == Transfer(old(View()), Reserved, Unavailable, n)
    {
      if n > reserved { return false; }
      reserved := reserved - n;
      if unavailable > U64_MAX - n { reserved := reserved + n; return false; }
      unavailable := unavailable + n;
      ok := Invariant();
    }

    method FenceCommitted(n: U64) returns (ok: bool)
      modifies this
      ensures Move(View(), ok) == Transfer(old(View()), Committed, Unavailable, n)
    {
      if n > committed { return false; }
      committed := committed - n;
      if unavailable > U64_MAX - n { committed := committed + n; return false; }
      unavailable := unavailable + n;
      ok := Invariant();
    }
  }

  ghost function Prefix(values: seq<int>, i: nat): int
    requires i <= |values|
  {
    if i == 0 then 0 else Prefix(values, i - 1) + values[i - 1]
  }

  lemma {:induction false} PrefixGrows(values: seq<int>, i: nat, j: nat)
    requires i <= j <= |values| && forall k :: 0 <= k < |values| ==> values[k] >= 0
    ensures Prefix(values, i) <= Prefix(values, j)
    decreases j - i
  {
    if i < j { PrefixGrows(values, i, j - 1); }
  }

  lemma FourBuckets(v: seq<int>)
    requires |v| == 4
    ensures Prefix(v, 4) == v[0] + v[1] + v[2] + v[3]
  {
    assert Prefix(v, 3) == Prefix(v, 2) + v[2] && Prefix(v, 1) == v[0];
  }

  lemma FiveBuckets(v: seq<int>)
    requires |v| == 5
    ensures Prefix(v, 5) == v[0] + v[1] + v[2] + v[3] + v[4]
  {
    assert Prefix(v, 4) == Prefix(v, 3) + v[3] && Prefix(v, 3) == Prefix(v, 2) + v[2] && Prefix(v, 1) == v[0];
  }
}
