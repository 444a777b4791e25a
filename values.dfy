/** Values shared by every part of the model: optional and fallible values,
    the outcome of a call into the identity provider, and the JavaScript
    `||` fallback over strings that the hook and the pages lean on.

    Strings are `seq<char>` where one `char` stands for one UTF-16 code unit
    of a JavaScript string, so `|s|` is JavaScript's `s.length`. */
module Values {

  datatype Option<+T> = None | Some(value: T)

  datatype Result<+R, +E> = Success(value: R) | Failure(error: E)

  /** What an awaited identity-provider call gives back: it resolves with a
      payload, or it throws an error object whose `message` may be missing;
      a missing message is written "" (JavaScript treats both as falsy). */
  datatype Outcome<+T> = Ok(payload: T) | Err(message: string)

  /** JavaScript truthiness of a nullable string such as `error`:
      `null` and `""` are falsy. */
  predicate Truthy(s: Option<string>)
  {
    s.Some? && s.value != ""
  }

  /** `xs[0] || xs[1] || ... `: the first non-empty string, or "" when every
      alternative is empty. A chain ending in a non-empty literal, such as
      `a || b || 'User'`, is `FirstNonEmpty([a, b, "User"])`. */
  function FirstNonEmpty(xs: seq<string>): (r: string)
    ensures r == "" <==> forall i :: 0 <= i < |xs| ==> xs[i] == ""
    ensures r != "" ==> exists i :: 0 <= i < |xs| && xs[i] == r && forall j :: 0 <= j < i ==> xs[j] == ""
  {
    if xs == [] then ""
    else if xs[0] != "" then xs[0]
    else
      var rest := FirstNonEmpty(xs[1..]);
      assert forall i :: 1 <= i < |xs| ==> xs[i] == xs[1..][i - 1];
      rest
  }

  /** The two-way chain `a || b` used for every error-message fallback. */
  lemma FirstNonEmptyPair(a: string, b: string)
    ensures a != "" ==> FirstNonEmpty([a, b]) == a
    ensures a == "" ==> FirstNonEmpty([a, b]) == b
  {
    assert [a, b][1..] == [b];
    assert [b][1..] == [];
  }
}
