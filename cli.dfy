/** The command-line flag parser `toBool` of the agent script. */
module Cli {
  import opened Domain

  /** The spellings `toBool` reads as true and as false. */
  const TrueWords: set<string> := {"yes", "y", "True", "true", "t", "1"}
  const FalseWords: set<string> := {"no", "n", "False", "false", "f", "0"}

  /** `toBool(arg)`: true for a true spelling, false for a false spelling, and
      `argparse.ArgumentTypeError` for every other string. */
  function ToBool(arg: string): (r: Result<bool>)
    ensures r == Success(true) <==> arg in TrueWords
    ensures r == Success(false) <==> arg in FalseWords
    ensures r.Failure? <==> arg !in TrueWords + FalseWords
    ensures r.Failure? ==> r.error == ArgumentTypeError("Boolean Value expected")
  {
    WordsDisjoint();
    if arg in TrueWords then Success(true)
    else if arg in FalseWords then Success(false)
    else Failure(ArgumentTypeError("Boolean Value expected"))
  }

  /** No spelling is read both ways. */
  lemma WordsDisjoint()
    ensures TrueWords !! FalseWords
  {
  }
}
