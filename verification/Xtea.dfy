/** The block cipher of lib/shared/protocol: 32-round XTEA over two 32-bit words,
    as published in Needham and Wheeler, "Tea extensions" (1997).

    Additions and subtractions of the round function go through Plus and Minus, so
    that a proof can cancel one against the other without looking at single bits. */
module Xtea {

  const DELTA: bv32 := 0x9E3779B9
  // The sum that decryption starts from, as the program spells it.
  const FINAL_SUM: bv32 := 0xC6EF3720
  const ROUNDS: nat := 32

  function Plus(a: bv32, b: bv32): bv32 { a + b }

  function Minus(a: bv32, b: bv32): bv32 { a - b }

  lemma MinusUndoesPlus(a: bv32, b: bv32, s: bv32)
    requires s == Plus(a, b)
    ensures Minus(s, b) == a
  {
    assert Minus(a + b, b) == a;
  }

  lemma PlusUndoesMinus(a: bv32, b: bv32, d: bv32)
    requires d == Minus(a, b)
    ensures Plus(d, b) == a
  {
    assert Plus(a - b, b) == a;
  }

  // The four key words of a codec.
  datatype Key = Key(k0: bv32, k1: bv32, k2: bv32, k3: bv32) {
    // Only the two low bits of an index are used.
    function At(i: bv32): bv32 {
      var j := i & 3;
      if j == 0 then k0 else if j == 1 then k1 else if j == 2 then k2 else k3
    }
  }

  // A block together with the running sum of the round schedule.
  datatype Block = Block(v0: bv32, v1: bv32, sum: bv32)

  function Mix(v: bv32): bv32 { ((v << 4) ^ (v >> 5)) + v }

  // What the first and the second half of a round add to a word, from the other
  // word and the running sum.
  function FirstMask(key: Key, v: bv32, sum: bv32): bv32 {
    Mix(v) ^ (sum + key.At(sum))
  }

  function SecondMask(key: Key, v: bv32, sum: bv32): bv32 {
    Mix(v) ^ (sum + key.At(sum >> 11))
  }

  function Forward(b: Block, key: Key): Block {
    var v0 := Plus(b.v0, FirstMask(key, b.v1, b.sum));
    var sum := Plus(b.sum, DELTA);
    Block(v0, Plus(b.v1, SecondMask(key, v0, sum)), sum)
  }

  function Backward(b: Block, key: Key): Block {
    var v1 := Minus(b.v1, SecondMask(key, b.v0, b.sum));
    var sum := Minus(b.sum, DELTA);
    Block(Minus(b.v0, FirstMask(key, v1, sum)), v1, sum)
  }

  // n-fold application of one round.
  function Iterate(n: nat, step: Block -> Block, b: Block): Block {
    if n == 0 then b else step(Iterate(n - 1, step, b))
  }

  function Encipher(key: Key): Block -> Block { b => Forward(b, key) }

  function Decipher(key: Key): Block -> Block { b => Backward(b, key) }

  lemma BackwardUndoesForward(b: Block, key: Key)
    ensures Backward(Forward(b, key), key) == b
  {
    var x := Forward(b, key);
    MinusUndoesPlus(b.sum, DELTA, x.sum);
    MinusUndoesPlus(b.v1, SecondMask(key, x.v0, x.sum), x.v1);
    MinusUndoesPlus(b.v0, FirstMask(key, b.v1, b.sum), x.v0);
  }

  lemma ForwardUndoesBackward(b: Block, key: Key)
    ensures Forward(Backward(b, key), key) == b
  {
    var x := Backward(b, key);
    PlusUndoesMinus(b.sum, DELTA, x.sum);
    PlusUndoesMinus(b.v0, FirstMask(key, x.v1, x.sum), x.v0);
    PlusUndoesMinus(b.v1, SecondMask(key, b.v0, b.sum), x.v1);
  }

  lemma {:induction false} IteratePeel(n: nat, step: Block -> Block, b: Block)
    requires n > 0
    ensures Iterate(n, step, b) == Iterate(n - 1, step, step(b))
  {
    if n > 1 {
      IteratePeel(n - 1, step, b);
    }
  }

  lemma {:induction false} IterateUndo(n: nat, step: Block -> Block, back: Block -> Block, b: Block)
    requires forall x :: back(step(x)) == x
    ensures Iterate(n, back, Iterate(n, step, b)) == b
  {
    if n > 0 {
      IterateUndo(n - 1, step, back, b);
      IteratePeel(n, back, Iterate(n, step, b));
    }
  }

  // Any number of rounds is a bijection on blocks.
  lemma RoundsInvert(n: nat, b: Block, key: Key)
    ensures Iterate(n, Decipher(key), Iterate(n, Encipher(key), b)) == b
    ensures Iterate(n, Encipher(key), Iterate(n, Decipher(key), b)) == b
  {
    forall x ensures Decipher(key)(Encipher(key)(x)) == x && Encipher(key)(Decipher(key)(x)) == x {
      BackwardUndoesForward(x, key);
      ForwardUndoesBackward(x, key);
    }
    IterateUndo(n, Encipher(key), Decipher(key), b);
    IterateUndo(n, Decipher(key), Encipher(key), b);
  }

  function SumAfter(n: nat): bv32 {
    if n == 0 then 0 else Plus(SumAfter(n - 1), DELTA)
  }

  lemma {:induction false} SumFollowsSchedule(n: nat, b: Block, key: Key)
    requires b.sum == 0
    ensures Iterate(n, Encipher(key), b).sum == SumAfter(n)
  {
    if n > 0 {
      SumFollowsSchedule(n - 1, b, key);
    }
  }

  lemma SumAfterAllRounds()
    ensures SumAfter(ROUNDS) == FINAL_SUM
  {
    assert SumAfter(8) == 0xf1bbcdc8;
    assert SumAfter(16) == 0xe3779b90;
    assert SumAfter(24) == 0xd5336958;
  }

  // Decryption undoes the schedule, so it ends on the sum that encryption starts from.
  lemma {:induction false} SumUnwinds(n: nat, k: nat, b: Block, key: Key)
    requires k <= n && b.sum == SumAfter(n)
    ensures Iterate(k, Decipher(key), b).sum == SumAfter(n - k)
  {
    if k > 0 {
      SumUnwinds(n, k - 1, b, key);
      MinusUndoesPlus(SumAfter(n - k), DELTA, SumAfter(n - k + 1));
    }
  }

  function Encrypted(n: nat, v0: bv32, v1: bv32, key: Key): Block {
    Iterate(n, Encipher(key), Block(v0, v1, 0))
  }

  function Decrypted(n: nat, v0: bv32, v1: bv32, key: Key): Block {
    Iterate(n, Decipher(key), Block(v0, v1, SumAfter(n)))
  }

  // The two directions undo each other for any number of rounds, words and sum.
  lemma DecryptEncrypt(n: nat, v0: bv32, v1: bv32, key: Key)
    ensures var e := Encrypted(n, v0, v1, key); Decrypted(n, e.v0, e.v1, key) == Block(v0, v1, 0)
  {
    SumFollowsSchedule(n, Block(v0, v1, 0), key);
    RoundsInvert(n, Block(v0, v1, 0), key);
  }

  lemma EncryptDecrypt(n: nat, v0: bv32, v1: bv32, key: Key)
    ensures var d := Decrypted(n, v0, v1, key); Encrypted(n, d.v0, d.v1, key) == Block(v0, v1, SumAfter(n))
  {
    SumUnwinds(n, n, Block(v0, v1, SumAfter(n)), key);
    RoundsInvert(n, Block(v0, v1, SumAfter(n)), key);
  }

  method XteaEncrypt(v0: bv32, v1: bv32, key: Key) returns (w0: bv32, w1: bv32)
    ensures w0 == Encrypted(ROUNDS, v0, v1, key).v0 && w1 == Encrypted(ROUNDS, v0, v1, key).v1
  {
    w0, w1 := v0, v1;
    var sum: bv32 := 0;
    for i := 0 to 32
      invariant Block(w0, w1, sum) == Iterate(i, Encipher(key), Block(v0, v1, 0))
    {
      w0 := Plus(w0, FirstMask(key, w1, sum));
      sum := Plus(sum, DELTA);
      w1 := Plus(w1, SecondMask(key, w0, sum));
    }
  }

  method XteaDecrypt(v0: bv32, v1: bv32, key: Key) returns (w0: bv32, w1: bv32)
    ensures w0 == Decrypted(ROUNDS, v0, v1, key).v0 && w1 == Decrypted(ROUNDS, v0, v1, key).v1
  {
    w0, w1 := v0, v1;
    var sum: bv32 := 0xC6EF3720;
    SumAfterAllRounds();
    for i := 0 to 32
      invariant Block(w0, w1, sum) == Iterate(i, Decipher(key), Block(v0, v1, SumAfter(ROUNDS)))
    {
      w1 := Minus(w1, SecondMask(key, w0, sum));
      sum := Minus(sum, DELTA);
      w0 := Minus(w0, FirstMask(key, w1, sum));
    }
  }

  lemma {:induction false} IterateAdd(m: nat, n: nat, step: Block -> Block, b: Block)
    ensures Iterate(m + n, step, b) == Iterate(m, step, Iterate(n, step, b))
  {
    if m > 0 {
      IterateAdd(m - 1, n, step, b);
    }
  }
}
