/** The names the compiler handles itself before it looks at the functions and variables of a program. */
module Builtins {
  import opened Words
  import opened Wrappers

  /** Handled whatever the arguments are. */
  const ALWAYS := ["print", "input", "exit", "isinstance", "issubclass", "hasattr", "callable", "setattr", "delattr",
    "exec", "eval", "compile", "vars", "dir", "object", "super", "NotImplemented", "zip", "enumerate", "map", "filter",
    "sorted", "reversed", "list", "tuple", "dict", "set", "all", "any", "sum"]

  /** Handled if there is an argument. */
  const GIVEN_ARGUMENTS := ["len", "str", "int", "float", "bool", "abs", "round", "chr", "ord", "hex", "oct", "bin",
    "type", "getattr", "id", "hash", "repr", "open"]

  /** Is a call of `f` with `n` arguments handled before the functions of the program are looked up? */
  predicate Handled(f: string, n: nat) {
    f in ALWAYS || (n > 0 && f in GIVEN_ARGUMENTS) || (n == 2 && (f == "max" || f == "min"))
  }

  /** Names that are never read from a variable. */
  const SPECIAL := ["__name__", "__file__", "__doc__", "True", "False", "None", "NotImplemented"]

  predicate Special(x: string) {
    x in SPECIAL
  }

  /** The calls that come to a constant, without a look at their arguments: 1 of type `bool`, and 0 of type `int`. */
  predicate AlwaysTrue(f: string) {
    f in ["isinstance", "issubclass", "hasattr", "callable", "all", "any"]
  }

  predicate AlwaysZero(f: string) {
    f == "sum"
  }

  // ----- the names in alphabetical order -----

  lemma AnyNumber(f: string)
    ensures Handled(f, 0) <==> f in [
      "NotImplemented", "all", "any", "callable", "compile", "delattr", "dict", "dir", "enumerate", "eval", "exec",
      "exit", "filter", "hasattr", "input", "isinstance", "issubclass", "list", "map", "object", "print", "reversed",
      "set", "setattr", "sorted", "sum", "super", "tuple", "vars", "zip"]
  {
  }

  lemma FromOneOn(f: string)
    ensures Handled(f, 1) <==> Handled(f, 0) || f in [
      "abs", "bin", "bool", "chr", "float", "getattr", "hash", "hex", "id", "int", "len", "oct", "open", "ord",
      "repr", "round", "str", "type"]
  {
  }

  /** A third argument and more make no difference; two are different from one for `max` and `min` only. */
  lemma OtherNumbers(f: string, n: nat)
    ensures Handled(f, 2) <==> Handled(f, 1) || f == "max" || f == "min"
    ensures n > 2 ==> (Handled(f, n) <==> Handled(f, 1))
  {
    hide ALWAYS, GIVEN_ARGUMENTS;
  }

  /** The calls that are constants, among the ones that are handled. */
  lemma ConstantCalls(f: string)
    ensures AlwaysTrue(f) <==> f in ["all", "any", "callable", "hasattr", "isinstance", "issubclass"]
    ensures AlwaysZero(f) <==> f == "sum"
    ensures AlwaysTrue(f) || AlwaysZero(f) ==> Handled(f, 0)
  {
  }

  lemma SumHandled(n: nat)
    ensures Handled("sum", n) && !AlwaysTrue("sum") && AlwaysZero("sum")
  {
    assert ALWAYS[29] == "sum";
  }
}
