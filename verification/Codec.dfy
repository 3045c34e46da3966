/**
 Batches of rows as streams of tokens (sliceio/codec.go). What gob writes is
 abstracted to tokens, and the checksum to a function of the tokens it saw.
 */
module Codec {
  import opened Rows
  import opened Reduction

  /** A frame has a key column and a value column, each written as one vector. */
  datatype Token<V> =
    | Count(n: nat)
    | Custom(codec: bool)
    | Keys(keys: seq<Key>)
    | Values(values: seq<V>)
    | Sum(crc: nat)

  /** The checksum, and which columns have a codec of their own. */
  datatype Format<!V> = Format(crc: seq<Token<V>> -> nat, keyCodec: bool, valueCodec: bool)

  datatype Status = Fine | EOF | Failed

  function KeyColumn<V>(rows: seq<Row<V>>): (ks: seq<Key>)
    ensures |ks| == |rows|
  {
    seq(|rows|, i requires 0 <= i < |rows| => rows[i].key)
  }

  function ValueColumn<V>(rows: seq<Row<V>>): (vs: seq<V>)
    ensures |vs| == |rows|
  {
    seq(|rows|, i requires 0 <= i < |rows| => rows[i].val)
  }

  /** What is written of a batch before its checksum. */
  function Body<V>(fmt: Format<V>, rows: seq<Row<V>>): seq<Token<V>> {
    [Count(|rows|), Custom(fmt.keyCodec), Keys(KeyColumn(rows)), Custom(fmt.valueCodec), Values(ValueColumn(rows))]
  }

  function Encoded<V>(fmt: Format<V>, rows: seq<Row<V>>): seq<Token<V>> {
    Body(fmt, rows) + [Sum(fmt.crc(Body(fmt, rows)))]
  }

  function EncodedAll<V>(fmt: Format<V>, batches: seq<seq<Row<V>>>): seq<Token<V>> {
    if batches == [] then [] else Encoded(fmt, batches[0]) + EncodedAll(fmt, batches[1..])
  }

  lemma {:induction false} EncodedAppend<V>(fmt: Format<V>, batches: seq<seq<Row<V>>>, rows: seq<Row<V>>)
    ensures EncodedAll(fmt, batches + [rows]) == EncodedAll(fmt, batches) + Encoded(fmt, rows)
  {
    if batches != [] {
      assert (batches + [rows])[1..] == batches[1..] + [rows];
      EncodedAppend(fmt, batches[1..], rows);
    }
  }

  /** Writes batches; the checksum starts over with each of them. */
  class Encoder<V> {
    const fmt: Format<V>
    var written: seq<Token<V>>
    var summed: seq<Token<V>>

    constructor (fmt: Format<V>)
      ensures this.fmt == fmt && written == []
    {
      this.fmt := fmt;
      written, summed := [], [];
    }

    method Emit(t: Token<V>)
      modifies this
      ensures written == old(written) + [t] && summed == old(summed) + [t]
    {
      written, summed := written + [t], summed + [t];
    }

    method Write(rows: seq<Row<V>>)
      modifies this
      ensures written == old(written) + Encoded(fmt, rows)
    {
      summed := [];
      Emit(Count(|rows|));
      Emit(Custom(fmt.keyCodec));
      Emit(Keys(KeyColumn(rows)));
      Emit(Custom(fmt.valueCodec));
      Emit(Values(ValueColumn(rows)));
      assert summed == Body(fmt, rows);
      Emit(Sum(fmt.crc(summed)));
    }
  }

  // What a stream of tokens means, whether it is intact or not.

  /** The five tokens after the count are the columns of n rows and the right checksum. */
  ghost predicate Sound<V>(fmt: Format<V>, n: nat, seen: seq<Token<V>>, tokens: seq<Token<V>>) {
    && |tokens| >= 5
    && tokens[0].Custom? && (tokens[0].codec ==> fmt.keyCodec) && tokens[1].Keys? && |tokens[1].keys| == n
    && tokens[2].Custom? && (tokens[2].codec ==> fmt.valueCodec) && tokens[3].Values? && |tokens[3].values| == n
    && tokens[4] == Sum(fmt.crc(seen + tokens[..4]))
  }

  /** The stream ends right before a column that has no codec of its own. */
  predicate LooksEnded<V>(fmt: Format<V>, tokens: seq<Token<V>>) {
    || (|tokens| == 1 && tokens[0].Custom? && !tokens[0].codec)
    || (|tokens| == 3 && tokens[0].Custom? && (tokens[0].codec ==> fmt.keyCodec)
        && tokens[2].Custom? && !tokens[2].codec)
  }

  /** Nothing tells this from the end of a complete stream. */
  predicate AtEnd<V>(fmt: Format<V>, tokens: seq<Token<V>>) {
    tokens == [] || (tokens[0].Count? && LooksEnded(fmt, tokens[1..]))
  }

  /** A whole batch comes next. */
  ghost predicate BatchNext<V>(fmt: Format<V>, tokens: seq<Token<V>>) {
    tokens != [] && tokens[0].Count? && Sound(fmt, tokens[0].n, [tokens[0]], tokens[1..])
  }

  function Zip<V>(keys: seq<Key>, values: seq<V>): (rows: seq<Row<V>>)
    requires |keys| == |values|
    ensures KeyColumn(rows) == keys && ValueColumn(rows) == values
  {
    seq(|keys|, i requires 0 <= i < |keys| => Row(keys[i], values[i]))
  }

  ghost function NextBatch<V>(fmt: Format<V>, tokens: seq<Token<V>>): seq<Row<V>>
    requires BatchNext(fmt, tokens)
  {
    Zip(tokens[2].keys, tokens[4].values)
  }

  /** The whole batches at the front of a stream. */
  ghost function Batches<V>(fmt: Format<V>, tokens: seq<Token<V>>): seq<seq<Row<V>>> {
    if BatchNext(fmt, tokens) then [NextBatch(fmt, tokens)] + Batches(fmt, tokens[6..]) else []
  }

  /** How reading a stream ends. */
  ghost function Ending<V>(fmt: Format<V>, tokens: seq<Token<V>>): (status: Status)
    ensures status != Fine
  {
    if BatchNext(fmt, tokens) then Ending(fmt, tokens[6..]) else if AtEnd(fmt, tokens) then EOF else Failed
  }

  /** A reader over any stream of tokens. */
  class DecodingReader<V> {
    const fmt: Format<V>
    var tokens: seq<Token<V>>
    var summed: seq<Token<V>>
    var buf: seq<Row<V>>
    var err: Status

    /** The rows still to come. */
    ghost function Rest(): seq<Row<V>>
      reads this
    {
      if err == Fine then buf + Flatten(Batches(fmt, tokens)) else []
    }

    /** The status that will be reported in the end. */
    ghost function End(): Status
      reads this
    {
      if err == Fine then Ending(fmt, tokens) else err
    }

    constructor (fmt: Format<V>, tokens: seq<Token<V>>)
      ensures err == Fine && Rest() == Flatten(Batches(fmt, tokens)) && End() == Ending(fmt, tokens)
    {
      this.fmt, this.tokens := fmt, tokens;
      summed, buf, err := [], [], Fine;
    }

    /** The next token, which the checksum sees as well. */
    method Next() returns (t: Token<V>, ok: bool)
      modifies this`tokens, this`summed
      ensures ok <==> old(tokens) != []
      ensures ok ==> t == old(tokens)[0] && tokens == old(tokens)[1..] && summed == old(summed) + [t]
      ensures !ok ==> tokens == [] && summed == old(summed)
    {
      if tokens == [] {
        return Count(0), false;
      }
      t, ok := tokens[0], true;
      tokens, summed := tokens[1..], summed + [t];
    }

    /** Decodes the columns of a batch of n rows; a batch is taken only if its checksum is right. */
    method Decode(n: nat) returns (rows: seq<Row<V>>, status: Status)
      modifies this`tokens, this`summed
      ensures status == Fine <==> Sound(fmt, n, old(summed), old(tokens))
      ensures status == Fine ==> rows == Zip(old(tokens)[1].keys, old(tokens)[3].values)
      ensures status == Fine ==> tokens == old(tokens)[5..]
      ensures status == EOF <==> LooksEnded(fmt, old(tokens))
    {
      rows := [];
      ghost var all, seen := tokens, summed;
      var flag, ok := Next();
      if !ok || !flag.Custom? || (flag.codec && !fmt.keyCodec) {
        return rows, Failed;
      }
      var keys;
      keys, ok := Next();
      if !ok {
        return rows, if flag.codec then Failed else EOF;
      }
      var flag2;
      flag2, ok := Next();
      if !ok || !flag2.Custom? || (flag2.codec && !fmt.valueCodec) {
        return rows, Failed;
      }
      var values;
      values, ok := Next();
      if !ok {
        return rows, if flag2.codec then Failed else EOF;
      }
      if !keys.Keys? || !values.Values? || |keys.keys| != n || |values.values| != n {
        return rows, Failed;
      }
      assert summed == seen + all[..4] && tokens == all[4..];
      var sum := fmt.crc(summed);
      var decoded;
      decoded, ok := Next();
      if !ok || !decoded.Sum? || decoded.crc != sum {
        return rows, Failed;
      }
      rows := Zip(keys.keys, values.values);
      status := Fine;
    }

    /** Decodes the next batch, if the stream goes on with one. */
    method DecodeBatch() returns (batch: seq<Row<V>>)
      requires err == Fine
      modifies this`tokens, this`summed, this`err
      ensures err == Fine <==> BatchNext(fmt, old(tokens))
      ensures if err == Fine then batch == NextBatch(fmt, old(tokens)) && tokens == old(tokens)[6..]
              else batch == [] && err == Ending(fmt, old(tokens))
    {
      hide Sound, LooksEnded;
      batch := [];
      ghost var all := tokens;
      summed := [];
      var count, ok := Next();
      if !ok {
        err := EOF;
        return;
      }
      if !count.Count? {
        err := Failed;
        return;
      }
      assert summed == [count] && tokens == all[1..];
      batch, err := Decode(count.n);
      if err == Fine {
        SoundTokens(fmt, count.n, all);
      } else {
        batch := [];
      }
    }

    /**
     Reads up to max rows. Batches that fit are handed on as they are, larger
     ones are buffered. What was read and what is left is what was left before.
     */
    method Read(max: nat) returns (rows: seq<Row<V>>, status: Status)
      modifies this
      ensures status == err && |rows| <= max && rows + Rest() == old(Rest()) && End() == old(End())
      ensures status != Fine ==> rows == [] && old(Rest()) == [] && status == old(End())
      ensures old(err) != Fine ==> status == old(err)
      ensures status == Fine ==> |tokens| <= |old(tokens)| && (max > 0 && rows == [] ==> |tokens| < |old(tokens)|)
    {
      hide BatchNext, NextBatch, AtEnd, Flatten;
      rows := [];
      if err != Fine {
        return rows, err;
      }
      while buf == []
        invariant err == Fine && Rest() == old(Rest()) && End() == old(End()) && |tokens| <= |old(tokens)|
        decreases buf == []
      {
        NextStep(fmt, tokens);
        var batch := DecodeBatch();
        if err != Fine {
          return rows, err;
        }
        if |batch| <= max {
          return batch, err;
        }
        buf := batch;
      }
      var m := if max < |buf| then max else |buf|;
      rows := buf[..m];
      assert buf == buf[..m] + buf[m..];
      buf := buf[m..];
      status := Fine;
    }
  }

  lemma SoundTokens<V>(fmt: Format<V>, n: nat, all: seq<Token<V>>)
    requires all != [] && Sound(fmt, n, [all[0]], all[1..])
    ensures |all| >= 6 && all[1..][5..] == all[6..]
    ensures all[1..][1] == all[2] && all[1..][3] == all[4]
  {
  }

  /** The rows of a stream are those of its first batch and then those of the rest. */
  lemma NextStep<V>(fmt: Format<V>, tokens: seq<Token<V>>)
    ensures BatchNext(fmt, tokens) ==>
              && |tokens| >= 6 && Ending(fmt, tokens) == Ending(fmt, tokens[6..])
              && Flatten(Batches(fmt, tokens)) == NextBatch(fmt, tokens) + Flatten(Batches(fmt, tokens[6..]))
    ensures !BatchNext(fmt, tokens) ==> Flatten(Batches(fmt, tokens)) == []
  {
    if BatchNext(fmt, tokens) {
      var batches := Batches(fmt, tokens);
      FlattenFirst(batches);
      assert batches[1..] == Batches(fmt, tokens[6..]);
    }
  }

  /**
   Reads any stream to where it ends, in frames of any sizes: the rows of its
   whole batches, and then its ending.
   */
  method DecodeAll<V>(fmt: Format<V>, tokens: seq<Token<V>>, frames: nat -> nat)
    returns (out: seq<Row<V>>, status: Status)
    requires forall i :: frames(i) > 0
    ensures out == Flatten(Batches(fmt, tokens)) && status == Ending(fmt, tokens)
    ensures FlagsAgree(fmt, tokens) ==> exists batches :: out == Flatten(batches) && EncodedAll(fmt, batches) <= tokens
    ensures forall batches :: tokens == EncodedAll(fmt, batches) ==> out == Flatten(batches) && status == EOF
    ensures forall batches, body: seq<Token<V>>, c, rest ::
              && tokens == EncodedAll(fmt, batches) + body + [Sum(c)] + rest
              && |body| == 5 && c != fmt.crc(body) ==>
                out == Flatten(batches) && status == Failed
  {
    hide EncodedAll, Batches, Ending, Flatten;
    out, status := Drain(fmt, tokens, frames);
    if FlagsAgree(fmt, tokens) {
      OnlyEncoded(fmt, tokens);
    }
    forall batches | tokens == EncodedAll(fmt, batches)
      ensures out == Flatten(batches) && status == EOF
    {
      EncodedLength(fmt, batches);
      CutStream(fmt, batches, |tokens|);
      assert tokens[..|tokens|] == tokens && batches[..|batches|] == batches;
    }
    forall batches, body: seq<Token<V>>, c, rest |
      && tokens == EncodedAll(fmt, batches) + body + [Sum(c)] + rest
      && |body| == 5 && c != fmt.crc(body)
      ensures out == Flatten(batches) && status == Failed
    {
      DamagedStream(fmt, batches, body, c, rest);
    }
  }

  method Drain<V>(fmt: Format<V>, tokens: seq<Token<V>>, frames: nat -> nat)
    returns (out: seq<Row<V>>, status: Status)
    requires forall i :: frames(i) > 0
    ensures out == Flatten(Batches(fmt, tokens)) && status == Ending(fmt, tokens)
  {
    hide Batches, Ending, Flatten, DecodingReader.Rest, DecodingReader.End;
    var d := new DecodingReader(fmt, tokens);
    out, status := [], Fine;
    var i := 0;
    while status == Fine
      invariant fresh(d) && status == d.err && (status != Fine ==> status == Ending(fmt, tokens) && d.Rest() == [])
      invariant out + d.Rest() == Flatten(Batches(fmt, tokens)) && d.End() == Ending(fmt, tokens)
      decreases status == Fine, |d.tokens| + |d.Rest()|
    {
      ghost var rest := d.Rest();
      var rows;
      rows, status := d.Read(frames(i));
      assert (out + rows) + d.Rest() == out + rest;
      out := out + rows;
      i := i + 1;
    }
  }

  // Encoded streams, complete or cut.

  lemma {:induction false} EncodedLength<V>(fmt: Format<V>, batches: seq<seq<Row<V>>>)
    ensures |EncodedAll(fmt, batches)| == 6 * |batches|
  {
    if batches != [] {
      EncodedLength(fmt, batches[1..]);
    }
  }

  lemma SameColumns<V>(a: seq<Row<V>>, b: seq<Row<V>>)
    requires KeyColumn(a) == KeyColumn(b) && ValueColumn(a) == ValueColumn(b)
    ensures a == b
  {
    assert |a| == |KeyColumn(b)|;
    forall i | 0 <= i < |a|
      ensures a[i] == b[i]
    {
      assert KeyColumn(a)[i] == KeyColumn(b)[i] && ValueColumn(a)[i] == ValueColumn(b)[i];
    }
  }

  /** An encoded batch is read back, whatever follows it. */
  lemma BatchReadsBack<V>(fmt: Format<V>, rows: seq<Row<V>>, tokens: seq<Token<V>>)
    requires Encoded(fmt, rows) <= tokens
    ensures BatchNext(fmt, tokens) && NextBatch(fmt, tokens) == rows
  {
    var e := Encoded(fmt, rows);
    assert |e| == 6 && tokens[..6] == e && tokens[0] == Count(|rows|);
    assert tokens[1..][0] == e[1] && tokens[1..][1] == e[2] && tokens[1..][2] == e[3];
    assert tokens[1..][3] == e[4] && tokens[1..][4] == e[5];
    assert [tokens[0]] + tokens[1..][..4] == Body(fmt, rows);
    assert Sound(fmt, |rows|, [tokens[0]], tokens[1..]);
    SameColumns(NextBatch(fmt, tokens), rows);
  }

  /** A batch that was cut is not taken; it passes for the end if cut right before a column without a codec. */
  lemma CutInBatch<V>(fmt: Format<V>, rows: seq<Row<V>>, n: nat)
    requires 0 < n < 6
    ensures var cut := Encoded(fmt, rows)[..n];
            !BatchNext(fmt, cut) && (AtEnd(fmt, cut) <==> (n == 2 && !fmt.keyCodec) || (n == 4 && !fmt.valueCodec))
  {
    var e := Encoded(fmt, rows);
    assert e[..n][0] == Count(|rows|) && |e[..n][1..]| == n - 1;
    if n >= 2 {
      assert e[..n][1..][0] == Custom(fmt.keyCodec);
    }
    if n >= 4 {
      assert e[..n][1..][2] == Custom(fmt.valueCodec);
    }
  }

  /** A stream cut after n tokens cannot be told from a complete one. */
  predicate Unnoticed<V>(fmt: Format<V>, n: nat) {
    n % 6 == 0 || (n % 6 == 2 && !fmt.keyCodec) || (n % 6 == 4 && !fmt.valueCodec)
  }

  /**
   A stream that was cut anywhere holds the batches that are whole, and the cut
   is noticed except at certain places.
   */
  lemma {:induction false} CutStream<V>(fmt: Format<V>, batches: seq<seq<Row<V>>>, n: nat)
    requires n <= |EncodedAll(fmt, batches)|
    ensures n / 6 <= |batches|
    ensures Batches(fmt, EncodedAll(fmt, batches)[..n]) == batches[..n / 6]
    ensures Ending(fmt, EncodedAll(fmt, batches)[..n]) == if Unnoticed(fmt, n) then EOF else Failed
  {
    hide Encoded, BatchNext, NextBatch, AtEnd;
    EncodedLength(fmt, batches);
    var all := EncodedAll(fmt, batches);
    if n == 0 {
      EmptyStream(fmt);
    } else if n < 6 {
      EncodedSize(fmt, batches[0]);
      assert all[..n] == Encoded(fmt, batches[0])[..n];
      CutInBatch(fmt, batches[0], n);
    } else {
      EncodedSize(fmt, batches[0]);
      CutStream(fmt, batches[1..], n - 6);
      BatchReadsBack(fmt, batches[0], all[..n]);
      assert all[..n][6..] == EncodedAll(fmt, batches[1..])[..n - 6];
      assert [batches[0]] + batches[1..][..(n - 6) / 6] == batches[..n / 6];
    }
  }

  lemma EmptyStream<V>(fmt: Format<V>)
    ensures !BatchNext(fmt, []) && AtEnd(fmt, [])
  {
  }

  lemma EncodedSize<V>(fmt: Format<V>, rows: seq<Row<V>>)
    ensures |Encoded(fmt, rows)| == 6
  {
  }

  /** Writes batches one after the other. */
  method EncodeBatches<V>(fmt: Format<V>, batches: seq<seq<Row<V>>>) returns (tokens: seq<Token<V>>)
    ensures tokens == EncodedAll(fmt, batches)
  {
    hide EncodedAll, Encoded;
    var e := new Encoder(fmt);
    EncodedLength(fmt, batches[..0]);
    for i := 0 to |batches|
      invariant fresh(e) && e.fmt == fmt && e.written == EncodedAll(fmt, batches[..i])
    {
      e.Write(batches[i]);
      EncodedAppend(fmt, batches[..i], batches[i]);
      assert batches[..i + 1] == batches[..i] + [batches[i]];
    }
    assert batches[..|batches|] == batches;
    tokens := e.written;
  }

  /**
   Batches are written, the stream is cut after n tokens, and what is left is
   read, in frames of any sizes. The rows of the whole batches come out, and
   the cut is noticed unless it is at the end of a batch or right before a
   column without a codec of its own.
   */
  method ReadCut<V>(fmt: Format<V>, batches: seq<seq<Row<V>>>, n: nat, frames: nat -> nat)
    returns (out: seq<Row<V>>, status: Status)
    requires n <= 6 * |batches| && forall i :: frames(i) > 0
    ensures out == Flatten(batches[..n / 6])
    ensures status == EOF <==> n % 6 == 0 || (n % 6 == 2 && !fmt.keyCodec) || (n % 6 == 4 && !fmt.valueCodec)
    ensures status == EOF || status == Failed
  {
    hide EncodedAll, Batches, Ending, Flatten;
    EncodedLength(fmt, batches);
    var tokens := EncodeBatches(fmt, batches);
    CutStream(fmt, batches, n);
    out, status := DecodeAll(fmt, tokens[..n], frames);
  }

  /** Round trip: without a cut the decoded rows are the encoded rows, and the end comes after them. */
  method RoundTrip<V>(fmt: Format<V>, batches: seq<seq<Row<V>>>, frames: nat -> nat)
    returns (out: seq<Row<V>>, status: Status)
    requires forall i :: frames(i) > 0
    ensures out == Flatten(batches) && status == EOF
  {
    hide Flatten;
    out, status := ReadCut(fmt, batches, 6 * |batches|, frames);
    assert batches[..|batches|] == batches;
  }

  // Damage.

  /** A batch with any other checksum than its own is not taken, and no end is taken for it. */
  lemma {:induction false} DamagedStream<V>(fmt: Format<V>, batches: seq<seq<Row<V>>>, body: seq<Token<V>>, c: nat,
                                            rest: seq<Token<V>>)
    requires |body| == 5 && c != fmt.crc(body)
    ensures var tokens := EncodedAll(fmt, batches) + body + [Sum(c)] + rest;
            Batches(fmt, tokens) == batches && Ending(fmt, tokens) == Failed
  {
    hide Encoded, NextBatch;
    var tokens := EncodedAll(fmt, batches) + body + [Sum(c)] + rest;
    if batches == [] {
      assert tokens == body + [Sum(c)] + rest;
      DamagedBatch(fmt, body, c, tokens);
    } else {
      EncodedSize(fmt, batches[0]);
      DamagedStream(fmt, batches[1..], body, c, rest);
      BatchReadsBack(fmt, batches[0], tokens);
      assert tokens[6..] == EncodedAll(fmt, batches[1..]) + body + [Sum(c)] + rest;
      assert [batches[0]] + batches[1..] == batches;
    }
  }

  lemma DamagedBatch<V>(fmt: Format<V>, body: seq<Token<V>>, c: nat, tokens: seq<Token<V>>)
    requires |body| == 5 && c != fmt.crc(body) && body + [Sum(c)] <= tokens
    ensures !BatchNext(fmt, tokens) && !AtEnd(fmt, tokens)
  {
    assert tokens[..6] == body + [Sum(c)];
    assert tokens[1..][4] == tokens[..6][5] == Sum(c);
    assert [tokens[0]] + tokens[1..][..4] == tokens[..6][..5] == body;
  }

  /**
   Intact batches are followed by one whose checksum is not that of its count
   and columns, and by anything after that: the rows of the intact batches come
   out, and then an error.
   */
  method ReadDamaged<V>(fmt: Format<V>, batches: seq<seq<Row<V>>>, body: seq<Token<V>>, c: nat, rest: seq<Token<V>>,
                        frames: nat -> nat)
    returns (out: seq<Row<V>>, status: Status)
    requires |body| == 5 && c != fmt.crc(body) && forall i :: frames(i) > 0
    ensures out == Flatten(batches) && status == Failed
  {
    hide EncodedAll, Batches, Ending, Flatten;
    var tokens := EncodeBatches(fmt, batches);
    DamagedStream(fmt, batches, body, c, rest);
    out, status := DecodeAll(fmt, tokens + body + [Sum(c)] + rest, frames);
  }

  /** The checksum of a batch was altered. */
  method ReadWrongChecksum<V>(fmt: Format<V>, batches: seq<seq<Row<V>>>, rows: seq<Row<V>>, c: nat,
                              rest: seq<Token<V>>, frames: nat -> nat)
    returns (out: seq<Row<V>>, status: Status)
    requires c != fmt.crc([Count(|rows|), Custom(fmt.keyCodec), Keys(KeyColumn(rows)),
                           Custom(fmt.valueCodec), Values(ValueColumn(rows))])
    requires forall i :: frames(i) > 0
    ensures out == Flatten(batches) && status == Failed
  {
    hide Flatten;
    out, status := ReadDamaged(fmt, batches, Body(fmt, rows), c, rest, frames);
  }

  /** The columns of a batch were altered, and the checksum tells them from what was written. */
  method ReadOtherColumns<V>(fmt: Format<V>, batches: seq<seq<Row<V>>>, rows: seq<Row<V>>, altered: seq<Row<V>>,
                             rest: seq<Token<V>>, frames: nat -> nat)
    returns (out: seq<Row<V>>, status: Status)
    requires fmt.crc(Body(fmt, altered)) != fmt.crc(Body(fmt, rows)) && forall i :: frames(i) > 0
    ensures out == Flatten(batches) && status == Failed
  {
    hide Flatten, Body;
    BodySize(fmt, altered);
    out, status := ReadDamaged(fmt, batches, Body(fmt, altered), fmt.crc(Body(fmt, rows)), rest, frames);
  }

  lemma BodySize<V>(fmt: Format<V>, rows: seq<Row<V>>)
    ensures |Body(fmt, rows)| == 5
  {
  }

  /** Flags are where an encoder puts them. */
  ghost predicate FlagsAgree<V>(fmt: Format<V>, tokens: seq<Token<V>>) {
    forall k: nat :: k < |tokens| ==>
      && (k % 6 == 1 ==> tokens[k] == Custom(fmt.keyCodec))
      && (k % 6 == 3 ==> tokens[k] == Custom(fmt.valueCodec))
  }

  /** Whatever is taken is what an encoder writes for it. */
  lemma {:induction false} OnlyEncoded<V>(fmt: Format<V>, tokens: seq<Token<V>>)
    requires FlagsAgree(fmt, tokens)
    ensures EncodedAll(fmt, Batches(fmt, tokens)) <= tokens
  {
    hide Encoded, BatchNext, NextBatch;
    if BatchNext(fmt, tokens) {
      BatchIsEncoded(fmt, tokens);
      OnlyEncoded(fmt, tokens[6..]);
      assert Batches(fmt, tokens)[1..] == Batches(fmt, tokens[6..]);
      assert tokens == tokens[..6] + tokens[6..];
    }
  }

  lemma BatchIsEncoded<V>(fmt: Format<V>, tokens: seq<Token<V>>)
    requires FlagsAgree(fmt, tokens) && BatchNext(fmt, tokens)
    ensures |tokens| >= 6 && tokens[..6] == Encoded(fmt, NextBatch(fmt, tokens)) && FlagsAgree(fmt, tokens[6..])
  {
    var rows := NextBatch(fmt, tokens);
    SoundTokens(fmt, tokens[0].n, tokens);
    assert [tokens[0]] + tokens[1..][..4] == tokens[..5];
    assert tokens[1..][4] == tokens[5];
    assert tokens[..5] == Body(fmt, rows);
    forall k: nat | k < |tokens[6..]|
      ensures tokens[6..][k] == tokens[k + 6] && (k + 6) % 6 == k % 6
    {
    }
  }

  /** A row that is lost without notice: only the count and the first flag of its batch arrive. */
  lemma CutUnnoticed(crc: seq<Token<int>> -> nat, r: Row<int>)
    ensures var fmt := Format(crc, false, false);
            var cut := EncodedAll(fmt, [[r]])[..2];
            Batches(fmt, cut) == [] && Ending(fmt, cut) == EOF
  {
    var fmt := Format(crc, false, false);
    EncodedLength(fmt, [[r]]);
    CutStream(fmt, [[r]], 2);
  }
}
