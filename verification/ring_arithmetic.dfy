/** Indices that wrap around, for both ring buffers: item number `i` lives in slot `i % capacity`. */
module RingArithmetic {
  function Increment(n: nat, capacity: nat): (r: nat)
    requires capacity > 0
    ensures r < capacity
  {
    (n + 1) % capacity
  }

  lemma SmallMultiple(c: nat, d: int)
    requires c > 0 && c * d < c && 0 < c * d + c
    ensures d == 0
  {
  }

  lemma Remainder(x: nat, q: int, r: nat, capacity: nat)
    requires x == capacity * q + r && r < capacity
    ensures x % capacity == r
  {
    var d := q - x / capacity;
    assert capacity * d == capacity * q - capacity * (x / capacity);
    SmallMultiple(capacity, d);
  }

  lemma ModDistinct(i: nat, j: nat, capacity: nat)
    requires capacity > 0 && i <= j < i + capacity && i % capacity == j % capacity
    ensures i == j
  {
    var d := j / capacity - i / capacity;
    assert capacity * d == capacity * (j / capacity) - capacity * (i / capacity);
    SmallMultiple(capacity, d);
  }

  lemma ModWraps(i: nat, capacity: nat)
    requires capacity > 0
    ensures (i + capacity) % capacity == i % capacity
  {
    assert capacity * (i / capacity + 1) == capacity * (i / capacity) + capacity;
    Remainder(i + capacity, i / capacity + 1, i % capacity, capacity);
  }

  lemma ModNext(i: nat, capacity: nat)
    requires capacity > 0
    ensures Increment(i % capacity, capacity) == (i + 1) % capacity
  {
    var q, r := i / capacity, i % capacity;
    if r + 1 < capacity {
      Remainder(i + 1, q, r + 1, capacity);
    } else {
      assert capacity * (q + 1) == capacity * q + capacity;
      Remainder(i + 1, q + 1, 0, capacity);
    }
  }
}
