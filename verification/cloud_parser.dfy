/** The interactive prompts the tool puts to the operator on standard input. */
module CloudParser {
  import opened Wrappers
  import opened Text
  import opened Env

  /** input(question): the next line of standard input, or EOFError when there is none. */
  method Input(w: World, question: Question) returns (r: Result<string>)
    modifies w`stdin, w`trace
    ensures w.trace == old(w.trace) + [Prompt(question)]
    ensures old(w.stdin) == [] ==> r == Err(EOFError) && w.stdin == old(w.stdin)
    ensures old(w.stdin) != [] ==> r == Ok(old(w.stdin)[0]) && w.stdin == old(w.stdin)[1..]
  {
    w.trace := w.trace + [Prompt(question)];
    if w.stdin == [] {
      return Err(EOFError);
    }
    r := Ok(w.stdin[0]);
    w.stdin := w.stdin[1..];
  }

  /**
   * An answer counts as yes when, stripped and lower-cased, it is "y";
   * lower-casing keeps the length, so that is one character that lowers to 'y'.
   */
  predicate Accepts(answer: string) {
    var t := Strip(answer);
    |t| == 1 && LowerChar(t[0]) == 'y'
  }

  /** Accepts is the comparison the prompt makes. */
  lemma AcceptsLowered(answer: string)
    ensures Accepts(answer) <==> Lower(Strip(answer)) == "y"
  {
    var t := Strip(answer);
    if |t| == 1 {
      assert Lower(t) == [LowerChar(t[0])];
    }
  }

  /** Exactly "y" or "Y", with any surrounding whitespace, is a yes. */
  lemma AcceptsExactly(answer: string)
    ensures Accepts(answer) <==> Strip(answer) == "y" || Strip(answer) == "Y"
  {
    var t := Strip(answer);
    if Accepts(answer) {
      assert t == [t[0]];
    }
  }

  /** The outcome of confirm for a given state of standard input. */
  function ConfirmOutcome(stdin: seq<string>): (r: Result<bool>)
    ensures r.Ok? <==> stdin != [] && Accepts(stdin[0])
    ensures r.Ok? ==> r.value
    ensures r.Err? ==> r.error == (if stdin == [] then EOFError else ValueError)
  {
    if stdin == [] then Err(EOFError)
    else if Accepts(stdin[0]) then Ok(true)
    else Err(ValueError)
  }

  /** The action a confirmation names, as confirm's question words it. */
  function Wording(deed: Deed): string {
    match deed
    case CreateGroup(group, location) => "create genesis resource group: " + group + " in " + location
    case CreateNodeIp(node, ipName) => "create new IP for node " + IntToString(node) + " @ " + ipName
    // delete_vm passes a whole question as the action, so its prompt repeats the opening words
    case DeleteVmNamed(vmName) => "Are you sure you want to delete VM " + vmName
  }

  /** The full question confirm puts. */
  function ConfirmQuestion(deed: Deed): (r: string)
    ensures r == "Are you sure you want to " + Wording(deed) + "? [y/N]\n"
  {
    "Are you sure you want to " + Wording(deed) + "? [y/N]\n"
  }

  /**
   * confirm(what): asks once; returns True on a yes and raises ValueError
   * on anything else, so it never returns False.
   */
  method Confirm(w: World, what: Deed) returns (r: Result<bool>)
    modifies w`stdin, w`trace
    ensures r == ConfirmOutcome(old(w.stdin))
    ensures w.trace == old(w.trace) + [Prompt(Confirming(what))]
    ensures w.stdin == if old(w.stdin) == [] then [] else old(w.stdin)[1..]
  {
    var answer :- Input(w, Confirming(what));
    if !Accepts(answer) {
      return Err(ValueError);
    }
    return Ok(true);
  }
}
