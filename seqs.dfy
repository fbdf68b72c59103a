/** Facts about sequence concatenation that the other modules use as proof steps. */
module Seqs {

  /** Moving a finished part from what is still owed to what is done keeps the total. */
  lemma Shift<T>(goal: seq<T>, done: seq<T>, done': seq<T>, part: seq<T>, owed: seq<T>)
    requires goal == done + (part + owed) && done' == done + part
    ensures goal == done' + owed
  {
    Assoc(done, part, owed);
  }

  lemma Assoc<T>(a: seq<T>, b: seq<T>, c: seq<T>)
    ensures a + (b + c) == (a + b) + c
  {
  }
}
