/**
 * Values shared by the argument parser, the request dispatcher and the
 * connection pump: optional values, results that may carry a failure, the
 * kinds of failure the dispatcher tells apart, and Java's String.contains.
 */
module Common {

  datatype Option<+T> = None | Some(value: T)

  datatype Result<+T, +E> = Ok(value: T) | Err(error: E)

  /**
   * What a collaborator may throw, classified the way the dispatcher's
   * catch clauses classify it. A message is the exception's getMessage(),
   * None standing for Java's null.
   */
  datatype Failure =
    | SocketTimeout                         // java.net.SocketTimeoutException
    | Unsupported(message: Option<string>)  // UnsupportedOperationException
    | IllegalArg(message: Option<string>)   // IllegalArgumentException
    | Other(exception: string)              // any other Exception, by class name

  /** The text Java's string concatenation produces for a message: null becomes "null". */
  function MessageText(message: Option<string>): (text: string)
    ensures message.Some? ==> text == message.value
    ensures message.None? ==> text == "null"
  {
    match message
    case Some(m) => m
    case None => "null"
  }

  /** `t` occurs in `s` at position `i`. */
  ghost predicate OccursAt(s: string, t: string, i: int)
  {
    0 <= i && i + |t| <= |s| && s[i..i + |t|] == t
  }

  /** Java's s.contains(t): some position of `s` starts an occurrence of `t`. */
  function Contains(s: string, t: string): (r: bool)
    ensures r <==> exists i :: OccursAt(s, t, i)
    decreases |s|
  {
    if |t| <= |s| && s[..|t|] == t then
      assert OccursAt(s, t, 0);
      true
    else if |s| <= |t| then
      false
    else
      var r := Contains(s[1..], t);
      assert r ==> exists i :: OccursAt(s, t, i) by {
        if r {
          var j :| OccursAt(s[1..], t, j);
          assert s[1..][j..j + |t|] == s[j + 1..j + 1 + |t|];
          assert OccursAt(s, t, j + 1);
        }
      }
      assert (exists i :: OccursAt(s, t, i)) ==> r by {
        forall i | OccursAt(s, t, i) ensures r {
          if i > 0 {
            assert s[1..][i - 1..i - 1 + |t|] == s[i..i + |t|];
            assert OccursAt(s[1..], t, i - 1);
          }
        }
      }
      r
  }
}
