/** The two pieces of Ruby semantics the middleware leans on:
    which exceptions a `rescue` clause catches, and `String#upcase`. */
module Ruby {

  /** A raised exception object. `id` is its identity (two raises of the
      same object share it); `ancestry` lists its class first and then
      every superclass up to `BasicObject`, as `e.class.ancestors`
      restricted to classes. */
  datatype Exception = Exception(id: nat, ancestry: seq<string>)

  const StandardError := "StandardError"

  /** `e.is_a?(cls)`. */
  predicate IsA(e: Exception, cls: string) {
    cls in e.ancestry
  }

  /** `rescue *classes => e`: the clause tries each listed class in turn
      and catches `e` as soon as `e` is an instance of one of them. An
      empty list catches nothing. */
  function Rescues(classes: seq<string>, e: Exception): (caught: bool)
    ensures caught <==> exists i :: 0 <= i < |classes| && IsA(e, classes[i])
  {
    if classes == [] then false
    else IsA(e, classes[0]) || Rescues(classes[1..], e)
  }

  /** `c.upcase` for one character: ASCII lower-case letters only. */
  function UpcaseChar(c: char): char {
    if 'a' <= c <= 'z' then (c as int - 32) as char else c
  }

  /** `s.upcase`, restricted to ASCII. */
  function Upcase(s: string): (r: string)
    ensures |r| == |s|
    ensures forall i :: 0 <= i < |s| ==> r[i] == UpcaseChar(s[i])
    ensures forall i :: 0 <= i < |r| ==> !('a' <= r[i] <= 'z')
  {
    if s == [] then [] else [UpcaseChar(s[0])] + Upcase(s[1..])
  }
}
