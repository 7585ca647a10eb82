/** Which group a tensor belongs to, by its name. */
module TensorNames {
  import opened Layout

  const OTHER := -4

  predicate HasAt(s: string, w: string, i: nat) {
    i + |w| <= |s| && s[i..i + |w|] == w
  }

  ghost predicate Occurs(s: string, w: string) {
    exists i: nat :: HasAt(s, w, i)
  }

  /** The first occurrence of `w` in `s`, or -1. */
  method Find(s: string, w: string) returns (i: int)
    ensures i < 0 ==> !Occurs(s, w)
    ensures i >= 0 ==> FirstAt(s, w, i)
  {
    i := 0;
    while i + |w| <= |s|
      invariant 0 <= i && forall j: nat :: j < i ==> !HasAt(s, w, j)
    {
      if HasAt(s, w, i) {
        return;
      }
      i := i + 1;
    }
    return -1;
  }

  predicate Digit(c: char) {
    '0' <= c <= '9'
  }

  predicate Digits(s: string) {
    forall i :: 0 <= i < |s| ==> Digit(s[i])
  }

  function Value(s: string): nat
    requires Digits(s)
  {
    if s == [] then 0 else Value(s[..|s| - 1]) * 10 + (s[|s| - 1] as int - '0' as int)
  }

  /** From `i` on `name` has the digits `number`, then a dot. */
  ghost predicate Numbered(name: string, i: nat, number: string) {
    number != [] && Digits(number) && HasAt(name, number + ".", i)
  }

  ghost predicate Unnumbered(name: string, i: nat) {
    forall number: string :: !Numbered(name, i, number)
  }

  /** `number` is written, with a dot after it, behind the first "blk." of `name`. */
  ghost predicate LayerNumber(name: string, number: string) {
    exists at: nat :: FirstAt(name, "blk.", at) && Numbered(name, at + 4, number)
  }

  ghost predicate FirstAt(s: string, w: string, i: nat) {
    HasAt(s, w, i) && forall j: nat :: j < i ==> !HasAt(s, w, j)
  }

  /** The number before the dot is determined by where it starts. */
  lemma SameNumber(name: string, i: nat, a: string, b: string)
    requires Numbered(name, i, a) && Numbered(name, i, b)
    ensures a == b
  {
    var x, y := a + ".", b + ".";
    assert forall k :: 0 <= k < |x| ==> name[i + k] == x[k] by {
      assert name[i..i + |x|] == x;
    }
    assert forall k :: 0 <= k < |y| ==> name[i + k] == y[k] by {
      assert name[i..i + |y|] == y;
    }
    assert x[|a|] == '.' && y[|b|] == '.';
    assert |a| == |b|;
    forall k | 0 <= k < |a| ensures a[k] == b[k] {
      assert x[k] == a[k] && y[k] == b[k];
    }
  }

  /** The number after the first "blk.", if a dot follows it; otherwise -1. */
  method ParseLayer(name: string) returns (layer: int)
    ensures layer >= 0 ==> exists number: string :: LayerNumber(name, number) && Digits(number) && layer == Value(number)
    ensures layer < 0 ==> layer == -1 && forall number: string :: !LayerNumber(name, number)
  {
    var p := Find(name, "blk.");
    if p < 0 {
      return -1;
    }
    var i := p + 4;
    var j := i;
    layer := 0;
    while j < |name| && Digit(name[j])
      invariant i <= j <= |name| && (forall k :: i <= k < j ==> Digit(name[k])) && Digits(name[i..j]) && layer == Value(name[i..j])
    {
      assert name[i..j + 1][..j - i] == name[i..j];
      layer := layer * 10 + (name[j] as int - '0' as int);
      j := j + 1;
    }
    if i < j < |name| && name[j] == '.' {
      assert name[i..j + 1] == name[i..j] + ".";
      assert FirstAt(name, "blk.", p) && Numbered(name, p + 4, name[i..j]);
    } else {
      layer := -1;
      NoNumber(name, i, j);
      forall at: nat | FirstAt(name, "blk.", at) ensures at == p {
      }
    }
  }

  lemma NumberEnds(name: string, i: nat, number: string)
    requires Numbered(name, i, number)
    ensures i + |number| < |name| && name[i + |number|] == '.'
    ensures forall k :: i <= k < i + |number| ==> Digit(name[k])
  {
    var w := number + ".";
    assert forall k :: 0 <= k < |w| ==> name[i..i + |w|][k] == name[i + k] == w[k];
    assert w[|number|] == '.';
    forall k | i <= k < i + |number| ensures Digit(name[k]) {
      assert name[i + (k - i)] == w[k - i] == number[k - i];
    }
  }

  /** Where the digits end, no dot, no number. */
  lemma NoNumber(name: string, i: nat, j: nat)
    requires i <= j <= |name| && (j < |name| ==> !Digit(name[j]))
    requires forall k :: i <= k < j ==> Digit(name[k])
    requires !(i < j < |name| && name[j] == '.')
    ensures Unnumbered(name, i)
  {
    forall number: string ensures !Numbered(name, i, number) {
      if Numbered(name, i, number) {
        NumberEnds(name, i, number);
      }
    }
  }

  /** A tensor whose name has a layer number belongs to that layer, any other to the role its name tells. */
  method Classify(name: string) returns (group: int)
    ensures forall number: string :: LayerNumber(name, number) ==> Digits(number) && group == Value(number)
    ensures (forall number: string :: !LayerNumber(name, number)) ==>
              group == if Occurs(name, "token_embd") then EMBD else if Occurs(name, "output_norm") then OUTNORM
                       else if HasAt(name, "output.", 0) then OUTPUT else OTHER
  {
    group := ParseLayer(name);
    if group >= 0 {
      forall s: string | LayerNumber(name, s) ensures Digits(s) && group == Value(s) {
        var number: string :| LayerNumber(name, number) && Digits(number) && group == Value(number);
        OneNumber(name, s, number);
      }
      return;
    }
    var embd := Find(name, "token_embd");
    if embd >= 0 {
      return EMBD;
    }
    var norm := Find(name, "output_norm");
    if norm >= 0 {
      return OUTNORM;
    }
    return if HasAt(name, "output.", 0) then OUTPUT else OTHER;
  }

  /** A name has at most one layer number. */
  lemma OneNumber(name: string, a: string, b: string)
    requires LayerNumber(name, a) && LayerNumber(name, b)
    ensures a == b
  {
    var i: nat :| FirstAt(name, "blk.", i) && Numbered(name, i + 4, a);
    var j: nat :| FirstAt(name, "blk.", j) && Numbered(name, j + 4, b);
    assert i == j;
    SameNumber(name, i + 4, a, b);
  }

  function Decimal(n: nat): (s: string)
    ensures s != [] && Digits(s) && Value(s) == n
  {
    var last := [(n % 10 + '0' as int) as char];
    if n < 10 then
      assert last[..0] == [];
      last
    else
      var front := Decimal(n / 10);
      assert (front + last)[..|front|] == front;
      front + last
  }

  /** The tensors of layer `n` get group `n`, whatever follows the layer's number. */
  method ClassifyLayer(n: nat, rest: string) returns (group: int)
    ensures group == n
  {
    var name := "blk." + Decimal(n) + "." + rest;
    assert name[0..4] == "blk.";
    assert name[4..4 + |Decimal(n) + "."|] == Decimal(n) + ".";
    assert FirstAt(name, "blk.", 0) && Numbered(name, 0 + 4, Decimal(n));
    assert LayerNumber(name, Decimal(n));
    group := Classify(name);
  }
}
