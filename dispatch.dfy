/**
 * `handle_command` and the loop in `main`. The dispatcher trims and
 * lower-cases the typed phrase and picks one handler; only the exit phrases
 * stop the loop.
 */
module Dispatch {
  import opened Text

  /** The handler a phrase selects. */
  datatype Command =
    | Help | SetBudget | AddExpense | ShowExpenses | ExpensesByDate | ExpensesByPeriod
    | ExpensesByCategory | ShowBalance | CategoryReport | Exit | Unrecognized

  /** `command.strip().lower()`: the phrase the dispatcher compares, never padded. */
  function Normalize(command: string): (cmd: string)
    ensures IsStripped(cmd) && |cmd| <= |command|
  {
    LowerKeepsStripped(Strip(command));
    Lower(Strip(command))
  }

  /** Every recognised phrase and the handler it selects. */
  const Phrases: map<string, Command> := map[
    "допомога" := Help, "help" := Help, "?" := Help,
    "встановити бюджет" := SetBudget,
    "додати витрату" := AddExpense,
    "показати витрати" := ShowExpenses,
    "витрати за дату" := ExpensesByDate,
    "витрати за період" := ExpensesByPeriod,
    "витрати за категорією" := ExpensesByCategory,
    "залишок" := ShowBalance,
    "звіт за категоріями" := CategoryReport,
    "вийти" := Exit, "exit" := Exit, "quit" := Exit
  ]

  /** The exit phrases. */
  const ExitPhrases: set<string> := {"вийти", "exit", "quit"}

  /** The `if`/`elif` chain of `handle_command`, applied to the normalised phrase. */
  function ClassifyPhrase(cmd: string): (c: Command)
    ensures c == Exit <==> cmd in ExitPhrases
    ensures c == Help <==> cmd in {"допомога", "help", "?"}
    ensures c == Unrecognized <==> cmd !in Phrases
    ensures c != Unrecognized ==> Phrases[cmd] == c
  {
    if cmd in {"допомога", "help", "?"} then Help
    else if cmd == "встановити бюджет" then SetBudget
    else if cmd == "додати витрату" then AddExpense
    else if cmd == "показати витрати" then ShowExpenses
    else if cmd == "витрати за дату" then ExpensesByDate
    else if cmd == "витрати за період" then ExpensesByPeriod
    else if cmd == "витрати за категорією" then ExpensesByCategory
    else if cmd == "залишок" then ShowBalance
    else if cmd == "звіт за категоріями" then CategoryReport
    else if cmd in {"вийти", "exit", "quit"} then Exit
    else Unrecognized
  }

  /** The handler `handle_command` runs for a typed line. */
  function Classify(command: string): (c: Command)
    ensures c == Exit <==> Normalize(command) in ExitPhrases
    ensures c == Unrecognized <==> Normalize(command) !in Phrases
    ensures c != Unrecognized ==> Phrases[Normalize(command)] == c
  {
    ClassifyPhrase(Normalize(command))
  }

  /**
   * The value `handle_command` returns: false, "stop", exactly for the exit
   * phrases; every other input, recognised or not, keeps the loop going.
   */
  function HandleCommand(command: string): (keepRunning: bool)
    ensures !keepRunning <==> Normalize(command) in ExitPhrases
  {
    Classify(command) != Exit
  }

  predicate IsAscii(s: string) {
    forall i :: 0 <= i < |s| ==> s[i] < '\U{80}'
  }

  /** Only the help and exit commands can be typed in ASCII. */
  lemma OnlyHelpAndExitInAscii(command: string)
    requires IsAscii(Normalize(command))
    ensures Classify(command) in {Help, Exit, Unrecognized}
  {
    OnlyHelpAndExitPhrasesInAscii(Normalize(command));
  }

  lemma OnlyHelpAndExitPhrasesInAscii(cmd: string)
    requires IsAscii(cmd)
    ensures ClassifyPhrase(cmd) in {Help, Exit, Unrecognized}
  {
    HandlerPhrasesAreCyrillic();
  }

  /** Every phrase of the other handlers starts with a code point of the Cyrillic block U+0400-U+04FF. */
  lemma HandlerPhrasesAreCyrillic()
    ensures forall p :: p in Phrases && Phrases[p] !in {Help, Exit} ==> |p| > 0 && '\U{400}' <= p[0] <= '\U{4FF}'
  {
  }

  /** Case and surrounding blanks do not matter: `EXIT` between blanks stops the loop. */
  lemma ExitInCapitals(lead: string, trail: string)
    requires AllSpace(lead) && AllSpace(trail)
    ensures !HandleCommand(lead + "EXIT" + trail)
  {
    StripPadded(lead, "EXIT", trail);
    assert Lower("EXIT") == "exit";
  }

  /** The two states of the loop in `main`. */
  datatype Phase = Running | Stopped

  /**
   * The `while True` loop of `main`, for any dispatcher `handle`: it hands
   * each typed line to `handle` and stops right after the first line for
   * which `handle` says stop, so it handles every line up to and including
   * that one and none after it. When the lines run out first, it is still
   * running.
   */
  method Loop(lines: seq<string>, handle: string -> bool) returns (handled: nat, phase: Phase)
    ensures handled <= |lines|
    ensures phase == Running <==> forall i :: 0 <= i < |lines| ==> handle(lines[i])
    ensures phase == Running ==> handled == |lines|
    ensures phase == Stopped ==> 0 < handled && !handle(lines[handled - 1])
    ensures forall i :: 0 <= i < handled - 1 ==> handle(lines[i])
  {
    handled, phase := 0, Running;
    while handled < |lines|
      invariant handled <= |lines|
      invariant phase == Running
      invariant forall i :: 0 <= i < handled ==> handle(lines[i])
    {
      var keepRunning := handle(lines[handled]);
      handled := handled + 1;
      if !keepRunning {
        phase := Stopped;
        break;
      }
    }
  }

  /**
   * `main` after loading: the loop driven by `handle_command`. It processes
   * the lines up to and including the first exit phrase, and none after it.
   */
  method RunSession(lines: seq<string>) returns (handled: nat, phase: Phase)
    ensures handled <= |lines|
    ensures phase == Running <==> forall i :: 0 <= i < |lines| ==> Normalize(lines[i]) !in ExitPhrases
    ensures phase == Running ==> handled == |lines|
    ensures phase == Stopped ==> 0 < handled && Normalize(lines[handled - 1]) in ExitPhrases
    ensures forall i :: 0 <= i < handled - 1 ==> Normalize(lines[i]) !in ExitPhrases
  {
    handled, phase := Loop(lines, HandleCommand);
  }
}
