/**
 The retrying byte reader (exec/bigmachine.go): a stored object is read through
 connections that may fail to open or break at any point, and is reopened at
 the number of bytes delivered so far.
 */
module RetryReader {

  type Byte = bv8

  /**
   What happens on one attempt: opening fails; reading fails after leaving some
   bytes in the buffer; or a read succeeds with at most n bytes, reporting the
   end along with the last bytes or only after them.
   */
  datatype Attempt = OpenFails | ReadFails(partial: seq<Byte>) | Reads(n: nat, eager: bool)

  datatype Error = None | EOF | GaveUp

  class RetryReader {
    const stored: seq<Byte>
    const attempts: nat -> Attempt
    const cancelled: nat -> bool
    const maxTries: nat
    var err: Error
    // The position of the open connection, if there is one.
    var open: bool
    var position: nat
    var bytes: nat
    var retries: nat
    var calls: nat
    // Everything handed to the caller so far.
    ghost var delivered: seq<Byte>

    ghost predicate Valid()
      reads this
    {
      InPlace() && (err == None ==> retries == 0)
    }

    /** What was delivered is a prefix of the object, and an open connection continues it. */
    ghost predicate InPlace()
      reads this
    {
      && bytes <= |stored| && delivered == stored[..bytes]
      && (open ==> position == bytes)
      && (err == EOF ==> bytes == |stored|)
    }

    constructor (stored: seq<Byte>, attempts: nat -> Attempt, cancelled: nat -> bool, maxTries: nat)
      ensures Valid() && delivered == [] && err == None && calls == 0 && this.stored == stored
      ensures this.attempts == attempts && this.cancelled == cancelled && this.maxTries == maxTries
    {
      this.stored, this.attempts, this.cancelled, this.maxTries := stored, attempts, cancelled, maxTries;
      err, open, position, bytes, retries, calls, delivered := None, false, 0, 0, 0, 0, [];
    }

    /**
     One attempt to open the object, if necessary, and to read from it. A failed
     read may leave anything in the buffer.
     */
    method Try(data: array<Byte>) returns (n: nat, ok: bool, eof: bool)
      requires InPlace()
      modifies this`open, this`position, this`calls, data
      ensures n <= data.Length && calls == old(calls) + 1 && (ok <==> attempts(old(calls)).Reads?)
      ensures ok ==> bytes + n <= |stored| && data[..n] == stored[bytes..bytes + n] && open && position == bytes + n
      ensures ok ==> var a := attempts(old(calls));
                && n <= a.n && (n == a.n || n == data.Length || n == |stored| - bytes)
                && (eof <==> bytes + n == |stored| && (n == 0 || a.eager))
    {
      var a := attempts(calls);
      calls := calls + 1;
      n, ok, eof := 0, false, false;
      if !open {
        if a.OpenFails? {
          return;
        }
        open, position := true, bytes;
      }
      match a {
        case OpenFails =>
          return;
        case ReadFails(partial) =>
          n := Least(|partial|, data.Length);
          Copy(data, partial[..n]);
          position := position + n;
        case Reads(k, eager) =>
          n, ok := Least(k, Least(data.Length, |stored| - position)), true;
          Copy(data, stored[position..position + n]);
          eof := position + n == |stored| && (n == 0 || eager);
          position := position + n;
      }
    }

    /**
     Reads into data. Failed attempts are retried from where delivery stopped,
     until the policy gives up; nothing a failed attempt did is visible.
     */
    method Read(data: array<Byte>) returns (n: nat, e: Error)
      requires Valid()
      modifies this, data
      ensures Valid() && n <= data.Length && e == err && bytes == old(bytes) + n
      ensures data[..n] == stored[old(bytes)..bytes]
      ensures delivered == old(delivered) + data[..n]
      ensures e == EOF ==> delivered == stored
      ensures old(err) != None ==> n == 0 && e == old(err) && calls == old(calls)
      ensures old(err) == None ==> calls > old(calls) && forall k :: old(calls) <= k < calls - 1 ==> !attempts(k).Reads?
      ensures old(err) == None ==>
                calls - old(calls) <= maxTries + 1 && forall k :: old(calls) < k < calls ==> !cancelled(k)
      ensures old(err) == None && e == GaveUp ==>
                && n == 0 && !attempts(calls - 1).Reads?
                && (calls - old(calls) == maxTries + 1 || cancelled(calls))
      ensures old(err) == None && e != GaveUp ==>
                var a := attempts(calls - 1);
                && a.Reads? && n <= a.n && (n == a.n || n == data.Length || n == |stored| - old(bytes))
                && (e == EOF <==> bytes == |stored| && (n == 0 || a.eager))
    {
      while true
        invariant InPlace() && bytes == old(bytes) && delivered == old(delivered)
        invariant err == old(err) && calls >= old(calls) && (err != None ==> calls == old(calls))
        invariant forall k :: old(calls) <= k < calls ==> !attempts(k).Reads?
        invariant err == None ==> retries == calls - old(calls) <= maxTries
        invariant err == None ==> forall k :: old(calls) < k <= calls ==> !cancelled(k)
        decreases maxTries - retries
      {
        if err != None {
          return 0, err;
        }
        var m, ok, eof := Try(data);
        if ok {
          retries := 0;
          err := if eof then EOF else None;
          delivered := delivered + data[..m];
          assert stored[..bytes + m] == stored[..bytes] + stored[bytes..bytes + m];
          bytes := bytes + m;
          return m, err;
        }
        open := false;
        retries := retries + 1;
        if retries > maxTries || cancelled(calls) {
          err := GaveUp;
          return 0, err;
        }
      }
    }
  }

  method Copy(data: array<Byte>, src: seq<Byte>)
    requires |src| <= data.Length
    modifies data
    ensures data[..|src|] == src
  {
    for i := 0 to |src|
      invariant data[..i] == src[..i]
    {
      data[i] := src[i];
    }
  }

  function Least(a: nat, b: nat): nat {
    if a < b then a else b
  }

  /** From attempt i on, one succeeds before the policy gives up. */
  ghost predicate SucceedsFrom(r: RetryReader, i: nat) {
    exists j: nat ::
      i <= j <= i + r.maxTries && r.attempts(j).Reads? && forall k :: i < k <= j ==> !r.cancelled(k)
  }

  lemma GaveUpBecause(r: RetryReader, i: nat, calls: nat)
    requires i < calls && forall k :: i <= k < calls ==> !r.attempts(k).Reads?
    requires calls - i == r.maxTries + 1 || r.cancelled(calls)
    ensures !SucceedsFrom(r, i)
  {
  }

  /** Attempts never fail for as long as makes the policy give up, and deliver something when they succeed. */
  ghost predicate Persistent(r: RetryReader) {
    && (forall i: nat :: SucceedsFrom(r, i))
    && (forall i: nat :: r.attempts(i).Reads? ==> r.attempts(i).n > 0)
  }

  /** In particular, attempts that always succeed do, whatever is cancelled. */
  lemma AlwaysReads(r: RetryReader)
    requires forall i: nat :: r.attempts(i).Reads? && r.attempts(i).n > 0
    ensures Persistent(r)
  {
    forall i: nat
      ensures SucceedsFrom(r, i)
    {
      assert i <= i <= i + r.maxTries && r.attempts(i).Reads?;
    }
  }

  /**
   Only a prefix of the stored bytes is ever delivered, and all of them by the
   end. Unless attempts fail too often in a row the end comes within one read
   more than there are bytes.
   */
  method ReadAll(r: RetryReader, size: nat, times: nat) returns (out: seq<Byte>, e: Error)
    requires r.Valid() && r.delivered == [] && size > 0
    modifies r
    ensures out <= r.stored && (e == EOF ==> out == r.stored)
    ensures old(r.err) == None && Persistent(r) && times > |r.stored| ==> e == EOF && out == r.stored
    ensures old(r.err) == None && times > |r.stored| ==>
              (forall i: nat :: r.attempts(i).Reads? && r.attempts(i).n > 0) ==> e == EOF && out == r.stored
  {
    if forall i: nat :: r.attempts(i).Reads? && r.attempts(i).n > 0 {
      AlwaysReads(r);
    }
    var data := new Byte[size](_ => 0);
    out, e := [], r.err;
    for i := 0 to times
      invariant r.Valid() && out == r.delivered && e == r.err
      invariant old(r.err) == None && Persistent(r) ==> e == EOF || (e == None && |out| >= i)
    {
      ghost var before := r.calls;
      var n;
      n, e := r.Read(data);
      out := out + data[..n];
      if e == GaveUp && r.calls > before {
        GaveUpBecause(r, before, r.calls);
      }
    }
  }
}
