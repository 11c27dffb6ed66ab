/** Result and option types shared by the models. */
module Common {

  datatype Option<+T> = None | Some(value: T)

  /** A Python call that either returns a value or raises. */
  datatype Outcome<+T, +E> = Ok(value: T) | Err(error: E)

  /** A missing amount counts as zero. */
  function OrZero(m: Option<int>): int { if m.Some? then m.value else 0 }

  function Min(a: int, b: int): int { if a <= b then a else b }

  function Max(a: int, b: int): int { if a <= b then b else a }

  function Sum(s: seq<int>): int {
    if s == [] then 0 else Sum(s[..|s| - 1]) + s[|s| - 1]
  }

  lemma {:induction false} SumAppend(s: seq<int>, t: seq<int>)
    ensures Sum(s + t) == Sum(s) + Sum(t)
  {
    if t == [] {
      assert s + t == s;
    } else {
      SumAppend(s, t[..|t| - 1]);
      assert (s + t)[..|s + t| - 1] == s + t[..|t| - 1];
    }
  }
}
