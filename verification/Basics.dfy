/** Options, results and the two small facts several modules share. */
module Basics {

  datatype Option<+T> = None | Some(value: T)

  datatype Result<+T, +E> = Ok(value: T) | Err(error: E) {
    predicate IsFailure() {
      Err?
    }

    function PropagateFailure<U>(): Result<U, E>
      requires Err?
    {
      Err(error)
    }

    function Extract(): T
      requires Ok?
    {
      value
    }
  }

  /** `text.split_once(separator)`: around the first occurrence. */
  function SplitOnce(text: string, separator: char): (parts: Option<(string, string)>)
    ensures parts.None? <==> separator !in text
    ensures parts.Some? ==>
              && text == parts.value.0 + [separator] + parts.value.1
              && separator !in parts.value.0
  {
    if text == [] then None
    else if text[0] == separator then Some(([], text[1..]))
    else match SplitOnce(text[1..], separator)
      case None => None
      case Some((before, after)) => Some(([text[0]] + before, after))
  }

  /** The split is the only one whose left part has no separator. */
  lemma {:induction false} SplitOnceUnique(before: string, separator: char, after: string)
    requires separator !in before
    ensures SplitOnce(before + [separator] + after, separator) == Some((before, after))
  {
    var text := before + [separator] + after;
    if before == [] {
      assert text[1..] == after;
    } else {
      assert text[1..] == before[1..] + [separator] + after;
      SplitOnceUnique(before[1..], separator, after);
      assert [text[0]] + before[1..] == before;
    }
  }

  lemma SubsetSize<T>(a: set<T>, b: set<T>)
    requires a <= b
    ensures |a| <= |b|
  {
    assert b == a + (b - a);
  }
}
