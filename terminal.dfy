/** The terminal overlay: a command line whose history of commands and replies
    lives as long as the page, whatever the overlay's visibility. */
module Terminal {
  import opened JsText

  /** One line of history: the command as typed and the reply shown under it. */
  datatype Entry = Entry(cmd: string, res: string)

  /** What submitting a line does. */
  datatype Action = Ignore | ClearHistory | Close | Reply(text: string)

  const NotFound: string := "Command not found. Type 'help' for list."
  const HelpText: string := "Available: whois, skills, projects, contact, clear, exit, dbstats"
  const WhoisText: string := "Đồng Minh Phú - Senior Software Engineer & Architect."
  const SkillsText: string := "Frontend: React, Next.js. Backend: Go, Rust. Infra: AWS, K8s."
  const DbStatsText: string := "DB: IndexedDB, Model: Gemini 3 Flash, Store: siteData, Mode: Premium Persistence."

  /** The commands the help text lists, in its order. */
  const Advertised: seq<string> := ["whois", "skills", "projects", "contact", "clear", "exit", "dbstats"]

  /** `input.toLowerCase().trim()`. */
  function Normalize(input: string): (r: string)
    ensures IsTrimmed(r)
  {
    Trim(ToLower(input))
  }

  /** The reply to a command that neither clears nor closes. */
  function Response(cmd: string): (r: string)
    ensures r != NotFound <==> cmd in ["help", "whois", "skills", "dbstats"]
  {
    if cmd == "help" then HelpText
    else if cmd == "whois" then WhoisText
    else if cmd == "skills" then SkillsText
    else if cmd == "dbstats" then DbStatsText
    else NotFound
  }

  /** handleCommand's decision, on the lower-cased, trimmed line: an empty
      line is ignored, `clear` and `exit` clear and close, everything else is
      answered. */
  function Classify(input: string): (a: Action)
    ensures a == Ignore <==> Normalize(input) == []
    ensures a == ClearHistory <==> Normalize(input) == "clear"
    ensures a == Close <==> Normalize(input) == "exit"
    ensures a.Reply? ==> a.text == Response(Normalize(input))
  {
    var cmd := Normalize(input);
    if cmd == [] then Ignore
    else if cmd == "clear" then ClearHistory
    else if cmd == "exit" then Close
    else Reply(Response(cmd))
  }

  /** handleCommand tests the raw line for blankness before lower-casing it;
      the lower-cased, trimmed line is empty exactly then, so `Classify` ignores
      exactly the blank lines. */
  lemma ClassifyIgnoresBlank(input: string)
    ensures Classify(input) == Ignore <==> Trim(input) == []
  {
    TrimLowerCommute(input);
  }

  lemma {:induction false} ToLowerIdempotent(s: string)
    ensures ToLower(ToLower(s)) == ToLower(s)
  {
    ToLowerFacts(s);
    ToLowerFacts(ToLower(s));
  }

  /** Commands are not case-sensitive: only the lower-cased, trimmed text counts. */
  lemma SameNormalForm(a: string, b: string)
    requires Normalize(a) == Normalize(b)
    ensures Classify(a) == Classify(b)
  {
  }

  lemma IgnoresCase(input: string)
    ensures Classify(ToLower(input)) == Classify(input)
  {
    ToLowerIdempotent(input);
    SameNormalForm(ToLower(input), input);
  }

  /** The help text lists `projects` and `contact`, which the terminal does not
      know: it answers them as unknown commands. Every other advertised
      command is handled. */
  lemma AdvertisedButMissing()
    ensures forall c :: c in Advertised ==>
      (Response(c) == NotFound && c != "clear" && c != "exit" <==> c == "projects" || c == "contact")
  {
  }

  /** Everything the overlay shows: the history, the input line and whether
      the page shows the overlay at all. */
  datatype Screen = Screen(history: seq<Entry>, input: string, open: bool)

  /** Every line in the history is the answer its command gets. */
  predicate Consistent(s: Screen) {
    forall i :: 0 <= i < |s.history| ==> Classify(s.history[i].cmd) == Reply(s.history[i].res)
  }

  /** handleCommand on the screen `s`. */
  function Submitted(s: Screen): (r: Screen)
    ensures Classify(s.input) == Ignore ==> r == s
    ensures Classify(s.input) == ClearHistory ==> r == s.(history := [], input := "")
    ensures Classify(s.input) == Close ==> r == s.(open := false)
    ensures Classify(s.input).Reply? ==>
      r == s.(history := s.history + [Entry(s.input, Classify(s.input).text)], input := "")
  {
    match Classify(s.input)
    case Ignore => s
    case ClearHistory => s.(history := [], input := "")
    case Close => s.(open := false)
    case Reply(res) => s.(history := s.history + [Entry(s.input, res)], input := "")
  }

  /** Submitting keeps every logged reply the answer to its command. */
  lemma SubmitKeepsConsistent(s: Screen)
    requires Consistent(s)
    ensures Consistent(Submitted(s))
  {
    var r := Submitted(s);
    match Classify(s.input)
    case Reply(text) =>
      assert r.history == s.history + [Entry(s.input, text)];
      forall i | 0 <= i < |r.history|
        ensures Classify(r.history[i].cmd) == Reply(r.history[i].res)
      {
        if i < |s.history| {
          assert r.history[i] == s.history[i];
        }
      }
    case _ =>
  }

  /** The history only grows by one line per answered command, and only
      `clear` shrinks it. */
  lemma SubmitHistory(s: Screen)
    ensures Classify(s.input) != ClearHistory ==> s.history <= Submitted(s).history
    ensures |Submitted(s).history| == (match Classify(s.input)
                                       case ClearHistory => 0
                                       case Reply(_) => |s.history| + 1
                                       case _ => |s.history|)
  {
  }

  class Console {
    var history: seq<Entry>
    var input: string
    /** isTerminalOpen, owned by the page. */
    var open: bool

    function Current(): Screen
      reads this
    {
      Screen(history, input, open)
    }

    constructor ()
      ensures Current() == Screen([], "", false)
    {
      history := [];
      input := "";
      open := false;
    }

    /** The terminal button in the navigation bar. */
    method Show()
      modifies this
      ensures Current() == old(Current()).(open := true)
    {
      open := true;
    }

    /** The close button and `exit`'s onClose. */
    method Hide()
      modifies this
      ensures Current() == old(Current()).(open := false)
    {
      open := false;
    }

    /** The input's onChange. */
    method Type(text: string)
      modifies this
      ensures Current() == old(Current()).(input := text)
    {
      input := text;
    }

    /** handleCommand. */
    method Submit()
      modifies this
      ensures Current() == Submitted(old(Current()))
    {
      match Classify(input)
      case Ignore =>
      case ClearHistory =>
        history := [];
        input := "";
      case Close =>
        Hide();
      case Reply(res) =>
        history := history + [Entry(input, res)];
        input := "";
    }
  }
}
