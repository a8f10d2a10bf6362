/** Scanning the command line of sandbox-exec, whose options are "D:de:f:n:p:t:" in the notation of getopt.

  Go strings are byte strings, so every `char` of an argument stands for one byte. */
module SandboxArgs {

  datatype ProfileSource = Inline | File | Named | Unknown

  /** The result of a scan: where the profile comes from, its parameters, and what is to be executed. */
  datatype ProfileSpec = ProfileSpec(
    source: ProfileSource,
    inline: string,
    file: string,
    name: string,
    params: seq<(string, string)>,
    extra: seq<string>,
    command: seq<string>,
    err: string)

  const EMPTY_SPEC := ProfileSpec(Unknown, "", "", "", [], [], [], "")

  /** The option letters that take a value. */
  predicate TakesValue(c: char) {
    c in "Defnpt"
  }

  /** Converting one byte to a string encodes it as UTF-8: bytes from 0x80 up become two bytes. */
  function ByteString(c: char): string {
    var n := c as int;
    if n < 0x80 || 0xFF < n then [c] else [(0xC0 + n / 0x40) as char, (0x80 + n % 0x40) as char]
  }

  /** Splits at the first '='; without one the whole text is the key. */
  function Cut(val: string): (kv: (string, string))
    ensures '=' !in kv.0
    ensures '=' in val ==> val == kv.0 + "=" + kv.1
    ensures '=' !in val ==> kv == (val, "")
  {
    if val == "" then ("", "")
    else if val[0] == '=' then ("", val[1..])
    else
      var (k, v) := Cut(val[1..]);
      assert val == [val[0]] + val[1..];
      ([val[0]] + k, v)
  }

  function AddFlag(s: ProfileSpec, c: char): ProfileSpec {
    s.(extra := s.extra + ["-" + ByteString(c)])
  }

  function Apply(s: ProfileSpec, opt: char, val: string): ProfileSpec {
    match opt
    case 'D' => s.(params := s.params + [Cut(val)])
    case 'f' => s.(source := File, file := val)
    case 'n' => s.(source := Named, name := val)
    case 'p' => s.(source := Inline, inline := val)
    case _ => s.(extra := s.extra + ["-" + ByteString(opt), val])
  }

  /** Where option scanning stops: at the index of the first command word, or at an option letter
    whose value is missing. */
  datatype Scan = Done(spec: ProfileSpec, next: nat) | Missing(spec: ProfileSpec, opt: char)

  predicate IsOptionWord(arg: string) {
    |arg| >= 2 && arg[0] == '-' && arg != "--"
  }

  /** Scans option words from argv[i] on. */
  function ScanWords(argv: seq<string>, i: nat, s: ProfileSpec): (r: Scan)
    requires i <= |argv|
    ensures r.Done? ==> i <= r.next <= |argv|
    decreases |argv| - i, 0
  {
    if i == |argv| then Done(s, i)
    else if argv[i] == "--" then Done(s, i + 1)
    else if !IsOptionWord(argv[i]) then Done(s, i)
    else ScanCluster(argv, i, 1, s)
  }

  /** Scans the letters of option word argv[i] from position j on. */
  function ScanCluster(argv: seq<string>, i: nat, j: nat, s: ProfileSpec): (r: Scan)
    requires i < |argv| && j <= |argv[i]|
    ensures r.Done? ==> i < r.next <= |argv|
    decreases |argv| - i - 1, 1, |argv[i]| - j
  {
    if j == |argv[i]| then ScanWords(argv, i + 1, s)
    else
      var c := argv[i][j];
      if !TakesValue(c) then ScanCluster(argv, i, j + 1, AddFlag(s, c))
      else if j + 1 < |argv[i]| then ScanWords(argv, i + 1, Apply(s, c, argv[i][j + 1..]))
      else if i + 1 < |argv| then ScanWords(argv, i + 2, Apply(s, c, argv[i + 1]))
      else Missing(s, c)
  }

  function MissingValue(s: ProfileSpec, c: char): ProfileSpec {
    s.(source := Unknown, err := "option -" + ByteString(c) + " requires a value")
  }

  function Finish(s: ProfileSpec, command: seq<string>): ProfileSpec {
    s.(command := command, err := if s.source == Unknown then "no profile option" else s.err)
  }

  /** The specification of ParseArgs. */
  function Parsed(argv: seq<string>): ProfileSpec {
    if |argv| == 0 then Finish(EMPTY_SPEC, [])
    else match ScanWords(argv, 1, EMPTY_SPEC)
      case Done(s, next) => Finish(s, argv[next..])
      case Missing(s, c) => MissingValue(s, c)
  }

  // ---------------------------------------------------------------------------------------------
  // The scanner as the program writes it: one loop over the words, one over the letters of a word.

  method ParseArgs(argv: seq<string>) returns (spec: ProfileSpec)
    ensures spec == Parsed(argv)
  {
    var s := EMPTY_SPEC;
    var i := 1;
    label Args: while i < |argv|
      invariant 1 <= i && (i <= |argv| || |argv| == 0)
      invariant |argv| > 0 ==> ScanWords(argv, 1, EMPTY_SPEC) == ScanWords(argv, i, s)
      invariant |argv| == 0 ==> s == EMPTY_SPEC
      decreases |argv| - i
    {
      var arg := argv[i];
      if arg == "--" {
        i := i + 1;
        return Finish(s, argv[i..]);
      }
      if |arg| < 2 || arg[0] != '-' {
        return Finish(s, argv[i..]);
      }
      var j := 1;
      while j < |arg|
        invariant 1 <= j <= |arg|
        invariant ScanWords(argv, 1, EMPTY_SPEC) == ScanCluster(argv, i, j, s)
      {
        var c := arg[j];
        if TakesValue(c) {
          var val := arg[j + 1..];
          if val == "" {
            if i + 1 >= |argv| {
              return MissingValue(s, c);
            }
            i := i + 1;
            val := argv[i];
          }
          s := Apply(s, c, val);
          i := i + 1;
          continue Args;
        }
        s := AddFlag(s, c);
        j := j + 1;
      }
      i := i + 1;
    }
    if |argv| > 0 {
      assert i == |argv| && argv[i..] == [];
    }
    return Finish(s, []);
  }

  // ---------------------------------------------------------------------------------------------
  // The printer that ParseArgs undoes.

  /** One option word, with the value word of a detached option. */
  datatype Word =
    | Flags(flags: string)
    | Attached(flags: string, opt: char, val: string)
    | Detached(flags: string, opt: char, val: string)

  predicate Printable(w: Word) {
    && (forall c :: c in w.flags ==> !TakesValue(c))
    && match w
       case Flags(flags) => flags != "" && flags != "-"
       case Attached(_, opt, val) => TakesValue(opt) && val != ""
       case Detached(_, opt, _) => TakesValue(opt)
  }

  predicate AllPrintable(ws: seq<Word>) {
    forall w :: w in ws ==> Printable(w)
  }

  function PrintWord(w: Word): seq<string> {
    match w
    case Flags(flags) => ["-" + flags]
    case Attached(flags, opt, val) => ["-" + flags + [opt] + val]
    case Detached(flags, opt, val) => ["-" + flags + [opt], val]
  }

  /** The printed words, followed by `rest`. */
  function Print(ws: seq<Word>, rest: seq<string>): seq<string> {
    if ws == [] then rest else PrintWord(ws[0]) + Print(ws[1..], rest)
  }

  /** What the printed options mean, read off the words themselves. */
  function FlagExtras(flags: string): seq<string> {
    if flags == "" then [] else ["-" + ByteString(flags[0])] + FlagExtras(flags[1..])
  }

  function WordExtras(w: Word): seq<string> {
    FlagExtras(w.flags) +
    if w.Flags? || w.opt in "Dfnp" then [] else ["-" + ByteString(w.opt), w.val]
  }

  function Extras(ws: seq<Word>): seq<string> {
    if ws == [] then [] else Extras(ws[..|ws| - 1]) + WordExtras(ws[|ws| - 1])
  }

  function Params(ws: seq<Word>): seq<(string, string)> {
    if ws == [] then []
    else
      var w := ws[|ws| - 1];
      Params(ws[..|ws| - 1]) + if !w.Flags? && w.opt == 'D' then [Cut(w.val)] else []
  }

  /** The value of the last word whose option letter is `opt`, or "". */
  function LastValue(ws: seq<Word>, opt: char): string {
    if ws == [] then ""
    else
      var w := ws[|ws| - 1];
      if !w.Flags? && w.opt == opt then w.val else LastValue(ws[..|ws| - 1], opt)
  }

  /** The source named by the last of the profile options -f, -n and -p. */
  function LastSource(ws: seq<Word>): ProfileSource {
    if ws == [] then Unknown
    else
      var w := ws[|ws| - 1];
      if w.Flags? then LastSource(ws[..|ws| - 1])
      else match w.opt
        case 'f' => File
        case 'n' => Named
        case 'p' => Inline
        case _ => LastSource(ws[..|ws| - 1])
  }

  function Meaning(ws: seq<Word>): ProfileSpec {
    ProfileSpec(LastSource(ws), LastValue(ws, 'p'), LastValue(ws, 'f'), LastValue(ws, 'n'), Params(ws), Extras(ws), [], "")
  }

  // ---------------------------------------------------------------------------------------------
  // Scanning printed words

  lemma FlagExtrasFirst(flags: string)
    requires flags != ""
    ensures FlagExtras(flags) == ["-" + ByteString(flags[0])] + FlagExtras(flags[1..])
  {
  }

  lemma {:induction false} ScanFlags(argv: seq<string>, i: nat, j: nat, flags: string, s: ProfileSpec)
    requires i < |argv| && 1 <= j && j + |flags| <= |argv[i]| && argv[i][j..j + |flags|] == flags
    requires forall c :: c in flags ==> !TakesValue(c)
    ensures ScanCluster(argv, i, j, s)
         == ScanCluster(argv, i, j + |flags|, s.(extra := s.extra + FlagExtras(flags)))
    decreases |flags|
  {
    if flags == "" {
      assert s.extra + [] == s.extra;
    } else {
      var c := flags[0];
      assert argv[i][j] == argv[i][j..j + |flags|][0] == c;
      assert c in flags;
      assert argv[i][j + 1..j + 1 + |flags[1..]|] == flags[1..];
      ScanFlags(argv, i, j + 1, flags[1..], AddFlag(s, c));
      FlagExtrasFirst(flags);
      AppendedTwice(s.extra, ["-" + ByteString(c)], FlagExtras(flags[1..]));
    }
  }

  lemma PrintedIsOptionWord(w: Word)
    requires Printable(w)
    ensures IsOptionWord(PrintWord(w)[0])
  {
    var arg := PrintWord(w)[0];
    if w.Flags? {
      assert arg[1..] == w.flags != "--"[1..];
    } else {
      assert arg[1 + |w.flags|] == w.opt != '-';
    }
  }

  lemma ScanItsFlags(argv: seq<string>, i: nat, w: Word, s: ProfileSpec)
    requires Printable(w) && i < |argv| && argv[i] == PrintWord(w)[0]
    ensures ScanWords(argv, i, s) == ScanCluster(argv, i, 1 + |w.flags|, s.(extra := s.extra + FlagExtras(w.flags)))
  {
    assert argv[i][1..1 + |w.flags|] == w.flags;
    PrintedIsOptionWord(w);
    ScanFlags(argv, i, 1, w.flags, s);
  }

  /** The specification after reading word w. */
  function AfterWord(s: ProfileSpec, w: Word): ProfileSpec {
    var s' := s.(extra := s.extra + FlagExtras(w.flags));
    if w.Flags? then s' else Apply(s', w.opt, w.val)
  }

  lemma ScanOneWord(argv: seq<string>, i: nat, w: Word, s: ProfileSpec)
    requires Printable(w)
    requires i + |PrintWord(w)| <= |argv| && argv[i] == PrintWord(w)[0]
    requires w.Detached? ==> argv[i + 1] == w.val
    ensures ScanWords(argv, i, s) == ScanWords(argv, i + |PrintWord(w)|, AfterWord(s, w))
  {
    ScanItsFlags(argv, i, w, s);
    if !w.Flags? {
      assert argv[i][1 + |w.flags|] == w.opt;
      assert argv[i][1 + |w.flags| + 1..] == if w.Attached? then w.val else "";
    }
  }

  /** Scanning one printed word applies that word's meaning to the specification read so far. */
  lemma ScanWord(argv: seq<string>, i: nat, w: Word, ws: seq<Word>)
    requires Printable(w)
    requires i + |PrintWord(w)| <= |argv| && argv[i] == PrintWord(w)[0]
    requires w.Detached? ==> argv[i + 1] == w.val
    ensures ScanWords(argv, i, Meaning(ws)) == ScanWords(argv, i + |PrintWord(w)|, Meaning(ws + [w]))
  {
    ScanOneWord(argv, i, w, Meaning(ws));
    AfterWordMeans(w, ws);
  }

  lemma AfterWordMeans(w: Word, ws: seq<Word>)
    requires Printable(w)
    ensures AfterWord(Meaning(ws), w) == Meaning(ws + [w])
  {
    assert (ws + [w])[..|ws|] == ws;
    if !w.Flags? {
      ApplyWord(Meaning(ws).(extra := Extras(ws) + FlagExtras(w.flags)), w, ws);
    }
  }

  lemma ApplyWord(s: ProfileSpec, w: Word, ws: seq<Word>)
    requires Printable(w) && !w.Flags?
    requires s == Meaning(ws).(extra := Extras(ws) + FlagExtras(w.flags))
    ensures Apply(s, w.opt, w.val) == Meaning(ws + [w])
  {
    assert (ws + [w])[..|ws|] == ws;
    AppendedTwice(Extras(ws), FlagExtras(w.flags), ["-" + ByteString(w.opt), w.val]);
  }

  lemma AppendedTwice(a: seq<string>, b: seq<string>, c: seq<string>)
    ensures a + b + c == a + (b + c) && b + [] == b
  {
  }

  /** Word w, followed by `rest`, stands at position i. */
  predicate StandsAt(argv: seq<string>, i: nat, w: Word, rest: seq<string>) {
    Printable(w) && i <= |argv| && argv[i..] == PrintWord(w) + rest
  }

  /** Scanning word w at position i turns the meaning of `done` into that of done + [w]. */
  predicate Scans(argv: seq<string>, i: nat, done: seq<Word>, w: Word, meaning: seq<Word> -> ProfileSpec) {
    && i + |PrintWord(w)| <= |argv|
    && ScanWords(argv, i, meaning(done)) == ScanWords(argv, i + |PrintWord(w)|, meaning(done + [w]))
  }

  ghost predicate ScansWords(argv: seq<string>, meaning: seq<Word> -> ProfileSpec) {
    forall i: nat, done: seq<Word>, w: Word, rest: seq<string> {:trigger StandsAt(argv, i, w, rest), Scans(argv, i, done, w, meaning)} ::
      StandsAt(argv, i, w, rest) ==> Scans(argv, i, done, w, meaning)
  }

  lemma {:induction false} ScanAll(
      argv: seq<string>, i: nat, done: seq<Word>, ws: seq<Word>, rest: seq<string>, meaning: seq<Word> -> ProfileSpec)
    requires AllPrintable(ws) && ScansWords(argv, meaning)
    requires i <= |argv| && argv[i..] == Print(ws, rest)
    ensures |rest| <= |argv| && ScanWords(argv, i, meaning(done)) == ScanWords(argv, |argv| - |rest|, meaning(done + ws))
    decreases |ws|
  {
    if ws == [] {
      assert done + ws == done;
      TailLength(argv, i, rest);
    } else {
      var w := ws[0];
      assert StandsAt(argv, i, w, Print(ws[1..], rest)) && Scans(argv, i, done, w, meaning);
      TakeWord(argv, i, w, Print(ws[1..], rest));
      ScanAll(argv, i + |PrintWord(w)|, done + [w], ws[1..], rest, meaning);
      assert done + [w] + ws[1..] == done + ws;
    }
  }

  lemma ScanPrinted(argv: seq<string>, i: nat, done: seq<Word>, ws: seq<Word>, rest: seq<string>)
    requires AllPrintable(ws)
    requires i <= |argv| && argv[i..] == Print(ws, rest)
    ensures |rest| <= |argv| && argv[|argv| - |rest|..] == rest
    ensures ScanWords(argv, i, Meaning(done)) == ScanWords(argv, |argv| - |rest|, Meaning(done + ws))
  {
    forall i: nat, done: seq<Word>, w: Word, rest: seq<string> | StandsAt(argv, i, w, rest)
      ensures Scans(argv, i, done, w, Meaning)
    {
      ScanNext(argv, i, done, w, rest);
    }
    ScanAll(argv, i, done, ws, rest, Meaning);
    PrintEnds(ws, rest);
    assert argv[|argv| - |rest|..] == argv[i..][|argv[i..]| - |rest|..];
  }

  lemma {:induction false} PrintEnds(ws: seq<Word>, rest: seq<string>)
    ensures |rest| <= |Print(ws, rest)| && Print(ws, rest)[|Print(ws, rest)| - |rest|..] == rest
    decreases |ws|
  {
    if ws != [] {
      PrintEnds(ws[1..], rest);
    }
  }

  lemma TailLength(argv: seq<string>, i: nat, rest: seq<string>)
    requires i <= |argv| && argv[i..] == rest
    ensures |rest| == |argv| - i
  {
  }

  lemma ScanNext(argv: seq<string>, i: nat, done: seq<Word>, w: Word, rest: seq<string>)
    requires Printable(w) && i <= |argv| && argv[i..] == PrintWord(w) + rest
    ensures i + |PrintWord(w)| <= |argv| && argv[i + |PrintWord(w)|..] == rest
    ensures ScanWords(argv, i, Meaning(done)) == ScanWords(argv, i + |PrintWord(w)|, Meaning(done + [w]))
  {
    TakeWord(argv, i, w, rest);
    ScanWord(argv, i, w, done);
  }

  lemma TakeWord(argv: seq<string>, i: nat, w: Word, rest: seq<string>)
    requires i <= |argv| && argv[i..] == PrintWord(w) + rest
    ensures i + |PrintWord(w)| <= |argv| && argv[i + |PrintWord(w)|..] == rest
    ensures argv[i] == PrintWord(w)[0] && (w.Detached? ==> argv[i + 1] == w.val)
  {
    assert |argv[i..]| == |argv| - i;
    assert argv[i..][|PrintWord(w)|..] == argv[i + |PrintWord(w)|..];
    assert argv[i] == argv[i..][0];
    if w.Detached? { assert argv[i + 1] == argv[i..][1]; }
  }

  /** ParseArgs undoes the printer: whatever mix of clustered flags, attached and detached values
    was printed, then `--` and a command, it returns the parameters and extras in order, the last
    profile option, and exactly the command. */
  lemma ParseUndoesPrint(argv0: string, ws: seq<Word>, command: seq<string>)
    requires AllPrintable(ws)
    ensures Parsed([argv0] + Print(ws, ["--"] + command)) == Finish(Meaning(ws), command)
  {
    var rest := ["--"] + command;
    var argv := [argv0] + Print(ws, rest);
    ScanPrinted(argv, 1, [], ws, rest);
    assert [] + ws == ws;
    var n := |argv| - |rest|;
    assert argv[n] == argv[n..][0] == "--";
    assert argv[n + 1..] == argv[n..][1..] == command;
  }

  /** Without `--` the command is the same, provided it cannot be mistaken for an option. */
  lemma ParseUndoesPrintWithoutDashes(argv0: string, ws: seq<Word>, command: seq<string>)
    requires AllPrintable(ws)
    requires command != [] ==> command[0] != "--" && !IsOptionWord(command[0])
    ensures Parsed([argv0] + Print(ws, command)) == Finish(Meaning(ws), command)
  {
    var argv := [argv0] + Print(ws, command);
    ScanPrinted(argv, 1, [], ws, command);
    assert [] + ws == ws;
    if command != [] {
      assert argv[|argv| - |command|] == command[0];
    }
  }

  /** A final cluster whose last letter awaits a value is reported as an error for that letter. */
  lemma ParseReportsMissingValue(argv0: string, ws: seq<Word>, flags: string, c: char)
    requires AllPrintable(ws) && AwaitsValue(flags, c)
    ensures
      var spec := Parsed([argv0] + Print(ws, ["-" + flags + [c]]));
      spec.source == Unknown && spec.err == "option -" + ByteString(c) + " requires a value" && spec.command == []
  {
    var last := "-" + flags + [c];
    var argv := [argv0] + Print(ws, [last]);
    ScanPrinted(argv, 1, [], ws, [last]);
    assert [] + ws == ws;
    var n := |argv| - 1;
    assert argv[n] == argv[n..][0] == last;
    ScanMissingValue(argv, n, flags, c, Meaning(ws));
  }

  lemma ScanMissingValue(argv: seq<string>, n: nat, flags: string, c: char, s: ProfileSpec)
    requires n + 1 == |argv| && argv[n] == "-" + flags + [c] && AwaitsValue(flags, c)
    ensures ScanWords(argv, n, s) == Missing(s.(extra := s.extra + FlagExtras(flags)), c)
  {
    var last := argv[n];
    assert last != "--" by { assert last[1 + |flags|] == c != '-'; }
    assert last[1..1 + |flags|] == flags;
    ScanFlags(argv, n, 1, flags, s);
  }

  // ---------------------------------------------------------------------------------------------
  // Conversely, every argv the scanner accepts was printed by some words.

  /** The value of the option word at position i is missing. */
  predicate LacksValue(argv: seq<string>, i: nat)
    requires i < |argv| && IsOptionWord(argv[i])
  {
    FlagPrefix(argv[i][1..]) + 2 == |argv[i]| && i + 1 == |argv|
  }

  /** Reads one option word back. */
  function WordAt(argv: seq<string>, i: nat): (w: Word)
    requires i < |argv| && IsOptionWord(argv[i]) && !LacksValue(argv, i)
    ensures i + |PrintWord(w)| <= |argv| && (w.Detached? ==> argv[i + 1] == w.val)
  {
    var arg := argv[i];
    var m := FlagPrefix(arg[1..]);
    var flags := arg[1..][..m];
    if 1 + m == |arg| then Flags(flags)
    else if m + 2 < |arg| then Attached(flags, arg[1 + m], arg[m + 2..])
    else Detached(flags, arg[1 + m], argv[i + 1])
  }

  /** Reads the words back from argv[i] on. */
  function Unprint(argv: seq<string>, i: nat): (ws: seq<Word>)
    requires i <= |argv|
    decreases |argv| - i
  {
    if i == |argv| || !IsOptionWord(argv[i]) || LacksValue(argv, i) then []
    else [WordAt(argv, i)] + Unprint(argv, i + |PrintWord(WordAt(argv, i))|)
  }

  function FlagPrefix(text: string): (m: nat)
    ensures m <= |text|
    ensures forall c :: c in text[..m] ==> !TakesValue(c)
    ensures m < |text| ==> TakesValue(text[m])
  {
    if text == "" || TakesValue(text[0]) then 0
    else
      var m := FlagPrefix(text[1..]);
      assert text[..m + 1] == [text[0]] + text[1..][..m];
      m + 1
  }

  ghost predicate PrintedOrMissing(argv: seq<string>, i: nat, ws: seq<Word>, r: Scan)
    requires i <= |argv|
    requires r.Done? ==> r.next <= |argv|
  {
    && AllPrintable(ws)
    && match r
       case Done(_, next) => argv[i..] == Print(ws, ["--"] + argv[next..]) || argv[i..] == Print(ws, argv[next..])
       case Missing(_, c) => exists flags :: AwaitsValue(flags, c) && argv[i..] == Print(ws, ["-" + flags + [c]])
  }

  /** A cluster of flags that ends in an option letter whose value would be the next word. */
  predicate AwaitsValue(flags: string, c: char) {
    TakesValue(c) && forall f :: f in flags ==> !TakesValue(f)
  }

  /** The word read back is printed as the option word it was read from. */
  lemma WordAtIsPrinted(argv: seq<string>, i: nat)
    requires i < |argv| && IsOptionWord(argv[i]) && !LacksValue(argv, i)
    ensures Printable(WordAt(argv, i)) && argv[i] == PrintWord(WordAt(argv, i))[0]
  {
    OptionWordForms(argv[i]);
  }

  lemma RejectedWord(argv: seq<string>, i: nat, s: ProfileSpec)
    requires i < |argv| && IsOptionWord(argv[i]) && LacksValue(argv, i)
    ensures PrintedOrMissing(argv, i, Unprint(argv, i), ScanWords(argv, i, s))
  {
    var m := FlagPrefix(argv[i][1..]);
    var flags := argv[i][1..][..m];
    ScanFlags(argv, i, 1, flags, s);
    OptionWordForms(argv[i]);
    assert AwaitsValue(flags, argv[i][1 + m]);
    assert argv[i..] == ["-" + flags + [argv[i][1 + m]]];
  }

  /** Every argv accepted without a missing value is the printed form of printable words followed
    by the command, with or without `--` between them; a missing value is reported exactly when
    the last word is a cluster that ends in an option letter awaiting its value. */
  lemma {:induction false} AcceptedIsPrinted(argv: seq<string>, i: nat, s: ProfileSpec)
    requires i <= |argv|
    ensures PrintedOrMissing(argv, i, Unprint(argv, i), ScanWords(argv, i, s))
    decreases |argv| - i
  {
    if i == |argv| || argv[i] == "--" || !IsOptionWord(argv[i]) {
      if i < |argv| {
        assert argv[i..] == [argv[i]] + argv[i + 1..];
      }
    } else if LacksValue(argv, i) {
      RejectedWord(argv, i, s);
    } else {
      var w := WordAt(argv, i);
      WordAtIsPrinted(argv, i);
      ScanOneWord(argv, i, w, s);
      AcceptedIsPrinted(argv, i + |PrintWord(w)|, AfterWord(s, w));
      PrependWord(argv, i, w, Unprint(argv, i + |PrintWord(w)|), ScanWords(argv, i, s));
    }
  }

  /** The three shapes of an option word. */
  lemma OptionWordForms(arg: string)
    requires IsOptionWord(arg)
    ensures
      var m := FlagPrefix(arg[1..]);
      var flags := arg[1..][..m];
      && (1 + m == |arg| ==> arg == "-" + flags && flags != "-")
      && (m + 2 < |arg| ==> arg == "-" + flags + [arg[1 + m]] + arg[m + 2..] && TakesValue(arg[1 + m]))
      && (m + 2 == |arg| ==> arg == "-" + flags + [arg[1 + m]] && TakesValue(arg[1 + m]))
  {
    var m := FlagPrefix(arg[1..]);
    var flags := arg[1..][..m];
    assert arg == "-" + arg[1..];
    if 1 + m == |arg| {
      assert flags == arg[1..];
    } else {
      assert arg[1..] == flags + [arg[1 + m]] + arg[m + 2..];
    }
  }

  lemma PrependWord(argv: seq<string>, i: nat, w: Word, ws: seq<Word>, r: Scan)
    requires Printable(w) && i + |PrintWord(w)| <= |argv|
    requires argv[i] == PrintWord(w)[0] && (w.Detached? ==> argv[i + 1] == w.val)
    requires r.Done? ==> r.next <= |argv|
    requires PrintedOrMissing(argv, i + |PrintWord(w)|, ws, r)
    ensures PrintedOrMissing(argv, i, [w] + ws, r)
  {
    assert argv[i..] == PrintWord(w) + argv[i + |PrintWord(w)|..];
    assert forall rest :: Print([w] + ws, rest) == PrintWord(w) + Print(ws, rest) by {
      assert ([w] + ws)[1..] == ws;
    }
  }

  /** For every argv: either a value is missing, and the error names the option, or the command is
    a suffix of argv and the error is set exactly when no profile option was given. */
  lemma CommandIsSuffix(argv: seq<string>)
    ensures
      var spec := Parsed(argv);
      || (exists c :: TakesValue(c) && spec.err == "option -" + ByteString(c) + " requires a value" && spec.command == [])
      || (&& |spec.command| <= |argv|
          && spec.command == argv[|argv| - |spec.command|..]
          && (spec.err == "" <==> spec.source != Unknown)
          && (spec.err != "" ==> spec.err == "no profile option"))
  {
    if |argv| > 0 {
      AcceptedIsPrinted(argv, 1, EMPTY_SPEC);
      ScanKeepsCommandAndError(argv, 1, EMPTY_SPEC);
      match ScanWords(argv, 1, EMPTY_SPEC) {
        case Done(s, next) =>
        case Missing(s, c) => assert TakesValue(c);
      }
    }
  }

  lemma {:induction false} ScanKeepsCommandAndError(argv: seq<string>, i: nat, s: ProfileSpec)
    requires i <= |argv|
    ensures ScanWords(argv, i, s).spec.command == s.command && ScanWords(argv, i, s).spec.err == s.err
    decreases |argv| - i, 0
  {
    if i < |argv| && IsOptionWord(argv[i]) {
      ClusterKeepsCommandAndError(argv, i, 1, s);
    }
  }

  lemma {:induction false} ClusterKeepsCommandAndError(argv: seq<string>, i: nat, j: nat, s: ProfileSpec)
    requires i < |argv| && j <= |argv[i]|
    ensures ScanCluster(argv, i, j, s).spec.command == s.command && ScanCluster(argv, i, j, s).spec.err == s.err
    decreases |argv| - i - 1, 1, |argv[i]| - j
  {
    if j == |argv[i]| {
      ScanKeepsCommandAndError(argv, i + 1, s);
    } else {
      var c := argv[i][j];
      if !TakesValue(c) {
        ClusterKeepsCommandAndError(argv, i, j + 1, AddFlag(s, c));
      } else if j + 1 < |argv[i]| {
        ScanKeepsCommandAndError(argv, i + 1, Apply(s, c, argv[i][j + 1..]));
      } else if i + 1 < |argv| {
        ScanKeepsCommandAndError(argv, i + 2, Apply(s, c, argv[i + 1]));
      }
    }
  }
}
