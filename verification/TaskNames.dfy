/**
 Naming tasks (exec/compile.go). A name that has been handed out before gets
 the number of earlier requests appended. Names are meant to be unique; they
 are, except when a requested name already looks like a numbered one.
 */
module TaskNames {

  function Digit(d: nat): char
    requires d < 10
  {
    ['0', '1', '2', '3', '4', '5', '6', '7', '8', '9'][d]
  }

  /** Decimal notation. */
  function Decimal(n: nat): (s: string)
    ensures s != []
  {
    if n < 10 then [Digit(n)] else Decimal(n / 10) + [Digit(n % 10)]
  }

  /** What is handed out for a name that was requested c times before. */
  function Mint(name: string, c: nat): string {
    if c == 0 then name else name + Decimal(c)
  }

  /** How often a name was requested. */
  function Count(requests: seq<string>, name: string): nat {
    if requests == [] then 0
    else
      var n := |requests| - 1;
      Count(requests[..n], name) + if requests[n] == name then 1 else 0
  }

  /** The names handed out for a list of requests. */
  function Minted(requests: seq<string>): (names: seq<string>)
    ensures |names| == |requests|
    ensures forall k :: 0 <= k < |requests| ==> names[k] == Mint(requests[k], Count(requests[..k], requests[k]))
  {
    seq(|requests|, k requires 0 <= k < |requests| => Mint(requests[k], Count(requests[..k], requests[k])))
  }

  class Namer {
    var counts: map<string, nat>

    constructor ()
      ensures counts == map[]
    {
      counts := map[];
    }

    function Of(name: string): nat
      reads this
    {
      if name in counts then counts[name] else 0
    }

    method New(name: string) returns (s: string)
      modifies this
      ensures s == Mint(name, old(Of(name)))
      ensures forall x :: Of(x) == old(Of(x)) + if x == name then 1 else 0
    {
      var c := Of(name);
      counts := counts[name := c + 1];
      s := if c == 0 then name else name + Decimal(c);
    }
  }

  /** Names for a list of requests. */
  method MintAll(requests: seq<string>) returns (names: seq<string>)
    ensures names == Minted(requests)
  {
    hide Mint, Minted;
    var n := new Namer();
    names := [];
    for k := 0 to |requests|
      invariant fresh(n) && |names| == k && forall x :: n.Of(x) == Count(requests[..k], x)
      invariant forall i :: 0 <= i < k ==> names[i] == Minted(requests)[i]
    {
      assert requests[..k + 1][..k] == requests[..k];
      var s := n.New(requests[k]);
      names := names + [s];
    }
    assert requests[..|requests|] == requests;
  }

  ghost predicate Distinct(names: seq<string>) {
    forall i, j :: 0 <= i < j < |names| ==> names[i] != names[j]
  }

  /** Some requested name is another one followed by a number that the other one reaches. */
  ghost predicate Clashing(requests: seq<string>) {
    exists x, c: nat :: 1 <= c < Count(requests, x) && x + Decimal(c) in requests
  }

  // Decimal numbers.

  lemma {:induction false} DecimalInjective(a: nat, b: nat)
    requires Decimal(a) == Decimal(b)
    ensures a == b
  {
    var s := Decimal(a);
    var n := |s| - 1;
    assert a >= 10 ==> |Decimal(a)| == |Decimal(a / 10)| + 1;
    assert b >= 10 ==> |Decimal(b)| == |Decimal(b / 10)| + 1;
    if n == 0 {
      assert s[0] == Digit(a) && s[0] == Digit(b);
    } else {
      assert Decimal(a / 10) == s[..n] && Decimal(b / 10) == s[..n];
      assert Digit(a % 10) == s[n] && Digit(b % 10) == s[n];
      DecimalInjective(a / 10, b / 10);
    }
  }

  /** The leading digits of a positive number are a positive number that is not larger. */
  lemma {:induction false} LeadingDigits(c: nat, k: nat) returns (c': nat)
    requires c >= 1 && 1 <= k <= |Decimal(c)|
    ensures 1 <= c' <= c && Decimal(c)[..k] == Decimal(c')
  {
    if k == |Decimal(c)| {
      assert Decimal(c)[..k] == Decimal(c);
      c' := c;
    } else {
      assert Decimal(c)[..k] == Decimal(c / 10)[..k];
      c' := LeadingDigits(c / 10, k);
    }
  }

  /** Two different names lead to the same one only if the longer extends the shorter by a number. */
  lemma SameMint(x: string, c: nat, y: string, d: nat) returns (c': nat)
    requires x != y && |x| <= |y| && Mint(x, c) == Mint(y, d)
    ensures 1 <= c' <= c && y == x + Decimal(c')
  {
    var s := Mint(x, c);
    assert x == s[..|x|] && y == s[..|y|];
    assert |x| == |y| ==> x == y;
    var k := |y| - |x|;
    assert s == x + Decimal(c);
    assert y == x + Decimal(c)[..k];
    c' := LeadingDigits(c, k);
  }

  /** Requests for one name never lead to the same result. */
  lemma SameName(x: string, c: nat, d: nat)
    requires Mint(x, c) == Mint(x, d)
    ensures c == d
  {
    if c > 0 && d > 0 {
      assert Mint(x, c)[|x|..] == Decimal(c) && Mint(x, d)[|x|..] == Decimal(d);
      DecimalInjective(c, d);
    } else {
      assert |Mint(x, c)| == |Mint(x, d)|;
    }
  }

  // Counting requests.

  lemma {:induction false} CountPrefix(requests: seq<string>, x: string, i: nat, j: nat)
    requires i <= j <= |requests|
    ensures Count(requests[..i], x) <= Count(requests[..j], x)
    ensures i < j && requests[i] == x ==> Count(requests[..i], x) < Count(requests[..j], x)
    decreases j - i
  {
    if i < j {
      assert requests[..i + 1][..i] == requests[..i];
      CountPrefix(requests, x, i + 1, j);
    }
  }

  /** The request before which x had been requested c times. */
  lemma {:induction false} Nth(requests: seq<string>, x: string, c: nat) returns (i: nat)
    requires c < Count(requests, x)
    ensures i < |requests| && requests[i] == x && Count(requests[..i], x) == c
  {
    var n := |requests| - 1;
    if c < Count(requests[..n], x) {
      i := Nth(requests[..n], x, c);
      assert requests[..n][..i] == requests[..i];
    } else {
      i := n;
    }
  }

  /** A clash gives two requests the same name. */
  lemma ClashRepeats(requests: seq<string>)
    requires Clashing(requests)
    ensures !Distinct(Minted(requests))
  {
    var x, c: nat :| 1 <= c < Count(requests, x) && x + Decimal(c) in requests;
    var y := x + Decimal(c);
    assert Count(requests, y) > 0 by {
      Requested(requests, y);
    }
    var i := Nth(requests, x, c);
    var j := Nth(requests, y, 0);
    assert |y| > |x|;
    assert Minted(requests)[i] == y && Minted(requests)[j] == y;
  }

  lemma {:induction false} Requested(requests: seq<string>, x: string)
    requires x in requests
    ensures Count(requests, x) > 0
  {
    var n := |requests| - 1;
    if requests[n] != x {
      Requested(requests[..n], x);
    }
  }

  /** A repeated name comes from a clash. */
  lemma RepeatClashes(requests: seq<string>, i: nat, j: nat)
    requires i < |requests| && j < |requests| && i != j && Minted(requests)[i] == Minted(requests)[j]
    requires |requests[i]| <= |requests[j]|
    ensures Clashing(requests)
  {
    var x, y := requests[i], requests[j];
    var c, d := Count(requests[..i], x), Count(requests[..j], y);
    if x == y {
      SameName(x, c, d);
      CountPrefix(requests, x, if i < j then i else j, if i < j then j else i);
      assert false;
    } else {
      var c' := SameMint(x, c, y, d);
      CountPrefix(requests, x, i, |requests|);
      assert requests[..|requests|] == requests;
      assert x + Decimal(c') in requests;
    }
  }

  /** Minted names are unique exactly if no two requests clash. */
  lemma UniqueUnlessClashing(requests: seq<string>)
    ensures Distinct(Minted(requests)) <==> !Clashing(requests)
  {
    if Clashing(requests) {
      ClashRepeats(requests);
    } else if !Distinct(Minted(requests)) {
      var names := Minted(requests);
      var i, j :| 0 <= i < j < |names| && names[i] == names[j];
      if |requests[i]| <= |requests[j]| {
        RepeatClashes(requests, i, j);
      } else {
        RepeatClashes(requests, j, i);
      }
    }
  }

  /** Uniqueness fails: a name that ends in 1, and another one requested twice. */
  lemma NamesRepeat()
    ensures Minted(["inv1_map1", "inv1_map", "inv1_map"]) == ["inv1_map1", "inv1_map", "inv1_map1"]
  {
    var a, b := "inv1_map1", "inv1_map";
    assert [a, b, b][..0] == [] && [a, b, b][..1] == [a] && [a, b, b][..2] == [a, b];
    assert [a][..0] == [] && [a, b][..1] == [a];
    assert Count([a], b) == 0;
    assert Count([a, b], b) == 1;
    assert Decimal(1) == "1";
    assert Mint(b, 1) == a;
  }
}
