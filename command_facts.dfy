/** What `run_command_with_args` makes of the command strings the script
    builds: which program runs and which arguments it receives. */
module CommandFacts {
  import opened Wrappers
  import opened CommandLine
  import opened Setup
  import opened PlanFacts

  /** A command whose first word is `program` runs `program` with the tokens
      of the rest. */
  lemma TokenizeSpaced(c: string, program: string, rest: string)
    requires IsWord(program) && c == program + " " + rest
    ensures Tokenize(c) == Some(Invocation(program, Words(rest)))
  {
    assert c == program + [' '] + rest;
    WordsCons(program, ' ', rest);
  }

  lemma Spaced(s: string, a: string, b: string)
    requires IsWord(a) && s == a + " " + b
    ensures Words(s) == [a] + Words(b)
  {
    assert s == a + [' '] + b;
    WordsCons(a, ' ', b);
  }

  lemma ConsThree(x: string, y: string, z: string, w: seq<string>)
    ensures [x] + ([y] + ([z] + w)) == [x, y, z] + w
  {
    var l, r := [x] + ([y] + ([z] + w)), [x, y, z] + w;
    assert |l| == |r|;
    forall i | 0 <= i < |l|
      ensures l[i] == r[i]
    {
      if i >= 3 {
        assert l[i] == w[i - 3];
      }
    }
  }

  /** Four words, then anything: the first word runs with the other three and
      the tokens of the rest. */
  lemma TokensOfFour(c: string, w1: string, w2: string, w3: string, w4: string, rest: string)
    requires IsWord(w1) && IsWord(w2) && IsWord(w3) && IsWord(w4)
    requires c == w1 + " " + (w2 + " " + (w3 + " " + (w4 + " " + rest)))
    ensures Tokenize(c) == Some(Invocation(w1, [w2, w3, w4] + Words(rest)))
  {
    var r3 := w4 + " " + rest;
    var r2 := w3 + " " + r3;
    var r1 := w2 + " " + r2;
    TokenizeSpaced(c, w1, r1);
    Spaced(r1, w2, r2);
    Spaced(r2, w3, r3);
    Spaced(r3, w4, rest);
    ConsThree(w2, w3, w4, Words(rest));
  }

  /** Two words, anything, and a last word. */
  lemma TokensAround(c: string, a: string, b: string, p: string, z: string)
    requires IsWord(a) && IsWord(b) && IsWord(z)
    requires c == a + " " + (b + " " + (p + " " + z))
    ensures Tokenize(c) == Some(Invocation(a, [b] + Words(p) + [z]))
  {
    var last := p + " " + z;
    var args := b + " " + last;
    TokenizeSpaced(c, a, args);
    Spaced(args, b, last);
    assert last == p + [' '] + z;
    WordsSeparated(p, ' ', z);
    WordsOfWord(z);
    assert [b] + (Words(p) + [z]) == [b] + Words(p) + [z];
  }

  lemma InstallParts(package: string)
    ensures InstallCommand(package) == "paru" + " " + ("-S" + " " + (package + " " + "--noconfirm"))
    ensures IsWord("paru") && IsWord("-S") && IsWord("--noconfirm")
  {
  }

  /** `paru -S <package> --noconfirm` runs paru with `-S`, the tokens of the
      package name and `--noconfirm`. */
  lemma InstallCommandTokens(package: string)
    ensures Tokenize(InstallCommand(package))
      == Some(Invocation("paru", ["-S"] + Words(package) + ["--noconfirm"]))
  {
    InstallParts(package);
    TokensAround(InstallCommand(package), "paru", "-S", package, "--noconfirm");
  }

  lemma EnableParts(unit: string)
    ensures EnableCommand(unit) == "sudo" + " " + ("systemctl" + " " + ("enable" + " " + ("--now" + " " + unit)))
  {
    var a, b, c, d := "sudo" + " ", "systemctl" + " ", "enable" + " ", "--now" + " ";
    assert EnablePrefix == a + b + c + d;
    assert a + b + c + d + unit == a + (b + (c + (d + unit)));
  }

  lemma EnableWords()
    ensures IsWord("sudo") && IsWord("systemctl") && IsWord("enable") && IsWord("--now")
  {
  }

  /** `sudo systemctl enable --now <unit>` runs sudo with `systemctl enable
      --now` and the tokens of the unit. */
  lemma EnableCommandTokens(unit: string)
    ensures Tokenize(EnableCommand(unit))
      == Some(Invocation("sudo", ["systemctl", "enable", "--now"] + Words(unit)))
  {
    EnableParts(unit);
    EnableWords();
    TokensOfFour(EnableCommand(unit), "sudo", "systemctl", "enable", "--now", unit);
  }

  lemma GitParts(key: string, value: string)
    ensures GitConfigCommand(key, value) == "git" + " " + ("config" + " " + ("--global" + " " + (key + " " + Quoted(value))))
    ensures IsWord("git") && IsWord("config") && IsWord("--global")
  {
  }

  /** `git config --global <key> "<value>"` runs git with `config --global`,
      the key, and the tokens of the quoted value: the double quotes are not
      interpreted and stay glued to the first and the last token. */
  lemma GitConfigCommandTokens(key: string, value: string)
    requires IsWord(key)
    ensures Tokenize(GitConfigCommand(key, value))
      == Some(Invocation("git", ["config", "--global", key] + Words(Quoted(value))))
  {
    GitParts(key, value);
    TokensOfFour(GitConfigCommand(key, value), "git", "config", "--global", key, Quoted(value));
  }

  /** A git name of two words reaches git as two arguments, each carrying one
      of the quotes. */
  lemma QuotedNameSplits(first: string, last: string)
    requires IsWord(first) && IsWord(last)
    ensures Words(Quoted(first + " " + last)) == ["\"" + first, last + "\""]
  {
    assert Quoted(first + " " + last) == ("\"" + first) + [' '] + (last + "\"");
    assert forall c :: c in "\"" + first ==> c == '"' || c in first;
    assert forall c :: c in last + "\"" ==> c == '"' || c in last;
    WordsCons("\"" + first, ' ', last + "\"");
    WordsOfWord(last + "\"");
  }

  lemma TokensOfTwo(c: string, a: string, b: string)
    requires IsWord(a) && IsWord(b) && c == a + " " + b
    ensures Tokenize(c) == Some(Invocation(a, [b]))
  {
    TokenizeSpaced(c, a, b);
    WordsOfWord(b);
  }

  lemma TokensOfThree(c: string, a: string, b: string, d: string)
    requires IsWord(a) && IsWord(b) && IsWord(d) && c == a + " " + (b + " " + d)
    ensures Tokenize(c) == Some(Invocation(a, [b, d]))
  {
    TokenizeSpaced(c, a, b + " " + d);
    Spaced(b + " " + d, b, d);
    WordsOfWord(d);
    assert [b] + [d] == [b, d];
  }

  /** The fixed commands of the script and the programs and arguments they
      run. */
  lemma UpgradeTokens()
    ensures Tokenize(CommandText(Upgrade)) == Some(Invocation("paru", ["-Syu"]))
  {
    TokensOfTwo(CommandText(Upgrade), "paru", "-Syu");
  }

  lemma RemoveParuTokens()
    ensures Tokenize(CommandText(RemoveParu)) == Some(Invocation("paru", ["-Rns", "paru"]))
  {
    TokensOfThree(CommandText(RemoveParu), "paru", "-Rns", "paru");
  }

  lemma RemoveRustupTokens()
    ensures Tokenize(CommandText(RemoveRustup)) == Some(Invocation("paru", ["-Rns", "rustup"]))
  {
    TokensOfThree(CommandText(RemoveRustup), "paru", "-Rns", "rustup");
  }

  lemma UpdateTldrTokens()
    ensures Tokenize(CommandText(UpdateTldr)) == Some(Invocation("tldr", ["--update"]))
  {
    TokensOfTwo(CommandText(UpdateTldr), "tldr", "--update");
  }

  /** The program of every fixed command is a single word. */
  lemma ProgramIsWord(c: Command)
    ensures IsWord(Program(c))
  {
  }

  /** Every fixed command runs its program with the tokens of the text that
      follows it. */
  lemma FixedCommandTokens(c: Command)
    ensures Tokenize(CommandText(c)) == Some(Invocation(Program(c), Words(Arguments(c))))
  {
    ProgramIsWord(c);
    TokenizeSpaced(CommandText(c), Program(c), Arguments(c));
  }

  /** None of the fixed commands is blank, so none of them makes
      `run_command_with_args` panic on an empty command. */
  lemma FixedCommandsNotBlank()
    ensures forall c: Command :: !AllWhitespace(CommandText(c))
  {
    forall c: Command
      ensures !AllWhitespace(CommandText(c))
    {
      FixedCommandTokens(c);
    }
  }

  /** Every command the script issues has a program to run: an install, an
      enable, a git setting or a fixed command is never blank. */
  lemma ScriptCommandsTokenize(st: Step, gitName: string, gitEmail: string)
    requires ScriptStep(st, gitName, gitEmail) && !st.Download?
    ensures Tokenize(Text(st)).Some?
  {
    var c := Text(st);
    match st {
      case Install(package) => assert c[0] == 'p';
      case Enable(unit) => assert c[0] == 's';
      case GitConfig(key, value) => assert c[0] == 'g';
      case Run(command) => FixedCommandsNotBlank();
    }
    assert c[0] in c;
  }
}
