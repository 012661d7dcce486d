/** Failure and absence types shared by the other modules. */
module Common {
  /** Samples in one 10 ms Mumble frame at 48 kHz. */
  const FRAME: int := 480

  datatype Option<+T> = None | Some(value: T) {
    function GetOr(default: T): T {
      if Some? then value else default
    }
  }

  datatype Result<+T, +E> = Success(value: T) | Failure(error: E)

  /** A set all of whose members come from two given values has at most two members. */
  lemma SubsetOfPair<T>(s: set<T>, a: T, b: T)
    requires s <= {a, b}
    ensures |s| <= 2
  {
    var rest := {a, b} - s;
    assert s + rest == {a, b};
    assert |s| + |rest| == |{a, b}|;
  }
}
