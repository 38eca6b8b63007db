/** Types shared by every part of the model: optional values, time, and the outcome of a remote call. */
module Prelude {

  datatype Option<+T> = None | Some(value: T)

  /** Milliseconds. Redis keeps expiry times in milliseconds too. */
  type Time = nat

  const SECOND: Time := 1000

  /** Row identifiers (UUIDs in the source; only their equality matters). */
  type Id = nat

  /**
    What happens to one awaited call to Redis, Postgres or Kafka: it is carried out and answered,
    it is refused before having any effect, or it is carried out but the caller sees an error.
   */
  datatype Reply = Answered | Refused | Unacknowledged {
    predicate Applied() {
      !Refused?
    }
  }

  /** One awaited call: the moment it reaches the remote store, and its outcome. */
  datatype Await = Await(at: Time, reply: Reply)

  function LowerChar(c: char): char {
    if 'A' <= c <= 'Z' then c + ('a' - 'A') else c
  }

  /** SQL lower() and str::to_lowercase on ASCII text. */
  function Lower(s: string): (t: string)
    ensures |t| == |s| && forall i :: 0 <= i < |s| ==> t[i] == LowerChar(s[i])
  {
    seq(|s|, i requires 0 <= i < |s| => LowerChar(s[i]))
  }

  lemma LowerTwice(s: string)
    ensures Lower(Lower(s)) == Lower(s)
  {
  }
}
