/**
  The VIBE runner's command-line builder `convert_list_to_arguments_with_same_key`:
  a list of values becomes one string in which every value follows its own copy
  of the same option, as in `-p HP:0000002 -p HP:0001648`.
*/
module VibeConverters {
  import opened PyStr

  /**
    `convert_list_to_arguments_with_same_key(argument_list, argument)`: nothing
    when the list is empty or its first value is empty, otherwise the option
    and the values joined by the option between spaces.
  */
  function ArgumentsWithSameKey(argumentList: seq<string>, argument: string): string {
    if |argumentList| > 0 && |argumentList[0]| > 0
    then argument + " " + Join(argumentList, " " + argument + " ")
    else ""
  }

  /** The words of the command line: the option, then a value, once per value. */
  function OptionWords(argumentList: seq<string>, argument: string): (r: seq<string>)
    ensures |r| == 2 * |argumentList|
    decreases |argumentList|
  {
    if argumentList == [] then []
    else [argument, argumentList[0]] + OptionWords(argumentList[1..], argument)
  }

  /** Every even word is the option and the word after it is the next value. */
  lemma {:induction false} OptionWordsAt(argumentList: seq<string>, argument: string, k: nat)
    requires k < |argumentList|
    ensures OptionWords(argumentList, argument)[2 * k] == argument
    ensures OptionWords(argumentList, argument)[2 * k + 1] == argumentList[k]
    decreases k
  {
    if k > 0 {
      OptionWordsAt(argumentList[1..], argument, k - 1);
    }
  }

  /** An empty list, or one whose first value is empty, gives no arguments, whatever follows. */
  lemma NoArguments(argumentList: seq<string>, argument: string)
    ensures ArgumentsWithSameKey(argumentList, argument) == "" <==>
              (argumentList == [] || argumentList[0] == [])
  {
    if argumentList != [] && argumentList[0] != [] {
      assert |argument + " " + Join(argumentList, " " + argument + " ")| > 0;
    }
  }

  /** Otherwise the result is the option words joined by single spaces: every value preceded by `argument `. */
  lemma {:induction false} ArgumentsAreOptionWords(argumentList: seq<string>, argument: string)
    requires argumentList != []
    ensures argument + " " + Join(argumentList, " " + argument + " ") == Join(OptionWords(argumentList, argument), " ")
    decreases |argumentList|
  {
    var words := OptionWords(argumentList, argument);
    var x := argumentList[0];
    if |argumentList| == 1 {
      assert words == [argument, x];
      assert words[1..] == [x];
    } else {
      var rest := argumentList[1..];
      ArgumentsAreOptionWords(rest, argument);
      var tail := Join(rest, " " + argument + " ");
      assert words == [argument, x] + OptionWords(rest, argument);
      assert words[1..] == [x] + OptionWords(rest, argument);
      assert words[1..][1..] == OptionWords(rest, argument);
      calc {
        argument + " " + Join(argumentList, " " + argument + " ");
        argument + " " + (x + (" " + argument + " ") + tail);
        argument + " " + (x + " " + (argument + " " + tail));
        argument + " " + (x + " " + Join(OptionWords(rest, argument), " "));
        argument + " " + Join(words[1..], " ");
        Join(words, " ");
      }
    }
  }

  /** A single value `x` gives `argument x`. */
  lemma OneValue(x: string, argument: string)
    requires x != []
    ensures ArgumentsWithSameKey([x], argument) == argument + " " + x
  {
  }

  /**
    When neither the option nor the values contain a space, splitting the result
    on spaces, as a shell would, gives back the option words.
  */
  lemma ArgumentsRoundTrip(argumentList: seq<string>, argument: string)
    requires argumentList != [] && argumentList[0] != []
    requires ' ' !in argument
    requires forall k :: 0 <= k < |argumentList| ==> ' ' !in argumentList[k]
    ensures Split(ArgumentsWithSameKey(argumentList, argument), " ") == OptionWords(argumentList, argument)
  {
    var words := OptionWords(argumentList, argument);
    ArgumentsAreOptionWords(argumentList, argument);
    forall k | 0 <= k < |words|
      ensures ' ' !in words[k]
    {
      OptionWordsAt(argumentList, argument, k / 2);
    }
    SplitJoin(words, ' ');
  }
}
