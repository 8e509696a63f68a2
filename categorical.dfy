/**
  `ToCategorical`: one-hot encoding of integer class labels. The number of
  classes is either given or, while it is unset (None or 0), inferred from
  the first labels seen as their maximum plus one and then remembered.
  The labels are the flattened integer array; a label x selects column x,
  and a negative label counts from the end (column x + k), as numpy's
  integer indexing does.
*/
module Categorical {
  import opened Outcomes

  /** The largest label. */
  function Max(xs: seq<int>): (m: int)
    requires |xs| > 0
    ensures (forall i :: 0 <= i < |xs| ==> xs[i] <= m) && exists i :: 0 <= i < |xs| && xs[i] == m
  {
    if |xs| == 1 then xs[0]
    else
      var m := Max(xs[1..]);
      assert forall i :: 1 <= i < |xs| ==> xs[i] == xs[1..][i - 1];
      if xs[0] >= m then xs[0] else m
  }

  /** Python truthiness: `not self.num_classes` holds for None and for 0. */
  predicate Unset(numClasses: Option<int>) {
    numClasses.None? || numClasses.value == 0
  }

  /**
    The number of classes `transform(xs)` uses, or the error `np.max` raises
    on no labels: a set number is used as it is, and an inferred one is the
    least number above every label.
  */
  function Classes(numClasses: Option<int>, xs: seq<int>): (r: Result<int>)
    ensures r.Failure? <==> Unset(numClasses) && |xs| == 0
    ensures r.Success? && !Unset(numClasses) ==> r.value == numClasses.value
    ensures r.Success? && Unset(numClasses) ==>
              (forall i :: 0 <= i < |xs| ==> xs[i] < r.value) && exists i :: 0 <= i < |xs| && xs[i] == r.value - 1
  {
    if !Unset(numClasses) then Success(numClasses.value)
    else if |xs| == 0 then Failure(ValueError("zero-size array to reduction operation maximum which has no identity"))
    else Success(Max(xs) + 1)
  }

  /**
    The `num_classes` remembered after `transform(xs)`, whether or not the
    call then raises. A set number is kept, and a call on the same labels
    after it uses the same number of classes.
  */
  function Remembered(numClasses: Option<int>, xs: seq<int>): (r: Option<int>)
    ensures !Unset(numClasses) || |xs| == 0 ==> r == numClasses
    ensures Classes(numClasses, xs).Success? ==> Classes(r, xs) == Classes(numClasses, xs)
  {
    if Unset(numClasses) && |xs| > 0 then Some(Max(xs) + 1) else numClasses
  }

  /** numpy accepts an index x into an axis of length k when -k <= x < k. */
  predicate InRange(x: int, k: int) {
    -k <= x < k
  }

  /** The column a label selects among k: negative labels count from the end. */
  function Column(x: int, k: int): int {
    if x < 0 then x + k else x
  }

  /** The n x k matrix with a 1 in row i at the column label i selects and 0 elsewhere. */
  function OneHot(xs: seq<int>, k: nat): seq<seq<real>> {
    seq(|xs|, i requires 0 <= i < |xs| => seq(k, j requires 0 <= j < k => if j == Column(xs[i], k) then 1.0 else 0.0))
  }

  /**
    What `transform(xs)` returns or raises: the error `np.max` raises on no
    labels while unset, a ValueError from `np.zeros` on a negative number of
    classes, an IndexError from the fancy assignment on a label out of range,
    and otherwise the one-hot matrix.
  */
  function Encode(numClasses: Option<int>, xs: seq<int>): (r: Result<seq<seq<real>>>)
    ensures r.Failure? <==>
            || (Unset(numClasses) && |xs| == 0)
            || Classes(numClasses, xs).value < 0
            || exists i :: 0 <= i < |xs| && !InRange(xs[i], Classes(numClasses, xs).value)
    ensures r.Success? ==> |r.value| == |xs|
  {
    var k := Classes(numClasses, xs);
    if k.Failure? then Failure(k.error)
    else if k.value < 0 then Failure(ValueError("negative dimensions are not allowed"))
    else if exists i :: 0 <= i < |xs| && !InRange(xs[i], k.value) then
      Failure(IndexError("index out of bounds"))
    else Success(OneHot(xs, k.value))
  }

  /**
    A successful encoding is |xs| rows of k entries, each row holding a
    single 1 at the column its label selects and 0 everywhere else.
  */
  lemma EncodeIsOneHot(numClasses: Option<int>, xs: seq<int>)
    requires Encode(numClasses, xs).Success?
    ensures var rows := Encode(numClasses, xs).value;
            var k := Classes(numClasses, xs).value;
            && k >= 0
            && |rows| == |xs|
            && (forall i :: 0 <= i < |xs| ==> |rows[i]| == k && 0 <= Column(xs[i], k) < k && rows[i][Column(xs[i], k)] == 1.0)
            && (forall i, j :: 0 <= i < |xs| && 0 <= j < k && j != Column(xs[i], k) ==> rows[i][j] == 0.0)
  {
  }

  /** The position of the first 1 in a row, or |row| when there is none. */
  function FirstOne(row: seq<real>): (j: nat)
    ensures j <= |row|
    ensures j < |row| ==> row[j] == 1.0
    ensures forall i :: 0 <= i < j ==> row[i] != 1.0
  {
    if |row| == 0 then 0
    else if row[0] == 1.0 then 0
    else 1 + FirstOne(row[1..])
  }

  /** Reads the labels back from a one-hot matrix: the column of each row's 1. */
  function Decode(rows: seq<seq<real>>): (labels: seq<int>)
    ensures |labels| == |rows|
  {
    seq(|rows|, i requires 0 <= i < |rows| => FirstOne(rows[i]))
  }

  /** Decoding a successful encoding gives the selected columns; for labels in [0, k) the labels themselves. */
  lemma DecodeEncode(numClasses: Option<int>, xs: seq<int>)
    requires Encode(numClasses, xs).Success?
    ensures var k := Classes(numClasses, xs).value;
            Decode(Encode(numClasses, xs).value) == seq(|xs|, i requires 0 <= i < |xs| => Column(xs[i], k))
    ensures (forall i :: 0 <= i < |xs| ==> xs[i] >= 0) ==> Decode(Encode(numClasses, xs).value) == xs
  {
    var k := Classes(numClasses, xs).value;
    var rows := Encode(numClasses, xs).value;
    EncodeIsOneHot(numClasses, xs);
    forall i | 0 <= i < |xs|
      ensures FirstOne(rows[i]) == Column(xs[i], k)
    {
    }
  }

  /** With the number of classes unset, non-negative labels always encode, into max + 1 columns. */
  lemma InferredClassesFit(numClasses: Option<int>, xs: seq<int>)
    requires Unset(numClasses) && |xs| > 0
    requires forall i :: 0 <= i < |xs| ==> xs[i] >= 0
    ensures Encode(numClasses, xs).Success?
    ensures Classes(numClasses, xs).value == Max(xs) + 1 >= 1
    ensures Remembered(numClasses, xs) == Some(Max(xs) + 1)
  {
  }

  /**
    The inferred number of classes sticks: after labels [0, 1] the encoder
    has two classes, so a later label 2 is out of range.
  */
  lemma InferenceIsRemembered()
    ensures Remembered(None, [0, 1]) == Some(2)
    ensures Encode(Some(2), [2]) == Failure(IndexError("index out of bounds"))
    ensures Encode(None, [2]).Success?
  {
    assert Max([0, 1]) == 1 by { assert [0, 1][1..] == [1]; }
    assert !InRange([2][0], 2);
  }

  /** A zero count is unset again: it is re-inferred on the next call. */
  lemma ZeroIsInferredAgain(xs: seq<int>)
    requires |xs| > 0
    ensures Classes(Some(0), xs) == Success(Max(xs) + 1)
    ensures Remembered(Some(0), xs) == Some(Max(xs) + 1)
  {
  }

  /** The labels' one-hot encoder with its `num_classes`. */
  class ToCategorical {
    var numClasses: Option<int>

    constructor (numClasses: Option<int>)
      ensures this.numClasses == numClasses
    {
      this.numClasses := numClasses;
    }

    /** The rows of a matrix. */
    static function Rows(a: array2<real>): (rows: seq<seq<real>>)
      reads a
      ensures |rows| == a.Length0 && forall i :: 0 <= i < a.Length0 ==> |rows[i]| == a.Length1
    {
      seq(a.Length0, i requires 0 <= i < a.Length0 reads a =>
        seq(a.Length1, j requires 0 <= j < a.Length1 reads a => a[i, j]))
    }

    /**
      `transform(X)`: infers and remembers the number of classes if unset,
      then writes a 1 into a zero matrix at each row's selected column.
    */
    method Transform(xs: seq<int>) returns (r: Result<array2<real>>)
      modifies this
      ensures numClasses == Remembered(old(numClasses), xs)
      ensures r.Failure? <==> Encode(old(numClasses), xs).Failure?
      ensures r.Failure? ==> r.error == Encode(old(numClasses), xs).error
      ensures r.Success? ==> fresh(r.value) && Rows(r.value) == Encode(old(numClasses), xs).value
      ensures r.Success? ==> r.value.Length0 == |xs| && r.value.Length1 == Classes(old(numClasses), xs).value
    {
      ghost var nc := numClasses;
      if Unset(numClasses) {
        if |xs| == 0 {
          assert Encode(nc, xs) == Failure(Classes(nc, xs).error);
          return Failure(ValueError("zero-size array to reduction operation maximum which has no identity"));
        }
        numClasses := Some(Max(xs) + 1);
      }
      var k := numClasses.value;
      assert Classes(nc, xs) == Success(k) && numClasses == Remembered(nc, xs);
      if k < 0 {
        assert Encode(nc, xs) == Failure(ValueError("negative dimensions are not allowed"));
        return Failure(ValueError("negative dimensions are not allowed"));
      }
      var n := |xs|;
      var categorical := new real[n, k]((i, j) => 0.0);
      var i := 0;
      while i < n
        invariant 0 <= i <= n
        invariant numClasses == Remembered(nc, xs)
        invariant forall p :: 0 <= p < i ==> InRange(xs[p], k)
        invariant forall p, q :: 0 <= p < n && 0 <= q < k ==>
                    categorical[p, q] == if p < i && q == Column(xs[p], k) then 1.0 else 0.0
      {
        if !InRange(xs[i], k) {
          assert Encode(nc, xs) == Failure(IndexError("index out of bounds"));
          return Failure(IndexError("index out of bounds"));
        }
        categorical[i, Column(xs[i], k)] := 1.0;
        i := i + 1;
      }
      forall p | 0 <= p < n
        ensures Rows(categorical)[p] == OneHot(xs, k)[p]
      {
      }
      assert Encode(nc, xs) == Success(OneHot(xs, k));
      r := Success(categorical);
    }
  }
}
