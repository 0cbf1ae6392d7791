/**
 * Identifier generation. The entity's ids are UUIDs generated by the
 * persistence layer; here an id is any string not already taken, built as
 * a string longer than every taken key.
 */
module Ids {

  /** Returns a non-empty key that is not in `taken`. */
  method NewId(taken: set<string>) returns (id: string)
    ensures id !in taken
    ensures |id| > 0
  {
    var longest: nat := 0;
    var rest := taken;
    while rest != {}
      invariant rest <= taken
      invariant forall k :: k in taken && k !in rest ==> |k| <= longest
      decreases |rest|
    {
      var k :| k in rest;
      if |k| > longest {
        longest := |k|;
      }
      rest := rest - {k};
    }
    id := seq(longest + 1, _ => 'u');
  }
}
