/** `HaveGarbageAtTheEnd`, the checkers' test that nothing but white space
    follows the expected output. */
module Garbage {

  /** The characters `strchr(" \t\r\n", c)` finds, which include the
      string's terminating NUL. */
  predicate IsTrailingBlank(c: char) {
    c == ' ' || c == '\t' || c == '\r' || c == '\n' || c == '\0'
  }

  /** Reads `rest` a character at a time: 1 at the first character that is
      not a trailing blank, 0 at the end of the input. `consumed` is how
      many characters were read. */
  method HaveGarbageAtTheEnd(rest: string) returns (r: int, consumed: nat)
    ensures r == 0 || r == 1
    ensures r == 1 <==> exists i :: 0 <= i < |rest| && !IsTrailingBlank(rest[i])
    ensures r == 0 ==> consumed == |rest|
    ensures r == 1 ==> 0 < consumed <= |rest| && !IsTrailingBlank(rest[consumed - 1])
    ensures forall i :: 0 <= i < consumed - 1 ==> IsTrailingBlank(rest[i])
  {
    consumed := 0;
    while consumed < |rest|
      invariant consumed <= |rest|
      invariant forall i :: 0 <= i < consumed ==> IsTrailingBlank(rest[i])
    {
      var c := rest[consumed];
      consumed := consumed + 1;
      if !IsTrailingBlank(c) {
        r := 1;
        return;
      }
    }
    r := 0;
  }
}
