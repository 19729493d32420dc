/** The string helpers' own test cases, read through the model. */
module UtilsExamples {
  import opened Utils

  /** The first four characters of `aaaabbbb`. */
  method TakeExample() returns (t: string)
    ensures t == "aaaa"
  {
    t := Take("aaaabbbb", 4);
  }

  /** The run of `c`s at the start of `cccccab`. */
  method TakeWhileExample() returns (t: string)
    ensures t == "ccccc" && |t| == 5
  {
    t := TakeWhile("cccccab", c => c == 'c');
    PrefixWhileUnique("cccccab", c => c == 'c', "ccccc");
  }

  /** `minga` without its first three characters. */
  lemma {:induction false} DropExample()
    ensures DropFromString("minga", 3) == "ga"
  {
  }
}
