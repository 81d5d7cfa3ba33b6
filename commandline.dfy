/** The one-line commands the IDE sends to the engine:
    `<verb> [-<flag> <value>]... -i <transaction id>`. */
module CommandLine {
  import opened Wire
  import opened Decimal

  datatype Arg = Arg(flag: char, value: string)

  /** A protocol verb and the argument flags it carries before the transaction flag. */
  datatype Command = Command(verb: string, args: seq<Arg>)

  predicate NoSpace(s: string) { forall i :: 0 <= i < |s| ==> s[i] != ' ' }

  /** A command whose tokens survive being written on one space-separated line. */
  predicate WellFormed(c: Command)
  {
    && NoSpace(c.verb)
    && forall k :: 0 <= k < |c.args| ==> c.args[k].flag != ' ' && NoSpace(c.args[k].value)
  }

  function ArgTokens(args: seq<Arg>): (ts: seq<string>)
    ensures |ts| == 2 * |args|
  {
    if args == [] then [] else ["-" + [args[0].flag], args[0].value] + ArgTokens(args[1..])
  }

  function Tokens(c: Command, id: nat): seq<string>
  {
    [c.verb] + ArgTokens(c.args) + ["-i", NatToDecimal(id)]
  }

  function Join(ts: seq<string>): string
    requires |ts| > 0
  {
    if |ts| == 1 then ts[0] else ts[0] + " " + Join(ts[1..])
  }

  /** Splits on every space, keeping empty tokens, as str.split(' ') does. */
  function Split(s: string): (ts: seq<string>)
    ensures |ts| > 0
  {
    if |s| == 0 then [""]
    else
      var rest := Split(s[1..]);
      if s[0] == ' ' then [""] + rest else [[s[0]] + rest[0]] + rest[1..]
  }

  lemma {:induction false} JoinLast(ts: seq<string>)
    requires |ts| >= 2
    ensures Join(ts) == Join(ts[..|ts| - 1]) + " " + ts[|ts| - 1]
  {
    if |ts| > 2 {
      JoinLast(ts[1..]);
      assert ts[1..][..|ts| - 2] == ts[..|ts| - 1][1..];
    }
  }

  /** The line sent for command `c` tagged with transaction id `id`: it starts
      with the verb and ends with the transaction flag and the id. */
  function Format(c: Command, id: nat): (line: string)
    ensures |line| >= |c.verb| && line[..|c.verb|] == c.verb
    ensures var tail := " -i " + NatToDecimal(id);
            |line| >= |tail| && line[|line| - |tail|..] == tail
  {
    var ts := Tokens(c, id);
    var n := |ts|;
    JoinLast(ts);
    JoinLast(ts[..n - 1]);
    assert ts[..n - 1][..n - 2] == ts[..n - 2];
    Join(ts)
  }

  function ParseArgs(ts: seq<string>): Option<seq<Arg>>
  {
    if ts == [] then Some([])
    else if |ts| >= 2 && |ts[0]| == 2 && ts[0][0] == '-' then
      match ParseArgs(ts[2..])
      case None => None
      case Some(rest) => Some([Arg(ts[0][1], ts[1])] + rest)
    else None
  }

  /** Reads a command line back into its command and its transaction id. */
  function ParseLine(line: string): Option<(Command, nat)>
  {
    var ts := Split(line);
    if |ts| < 3 || ts[|ts| - 2] != "-i" then None
    else
      match (ParseArgs(ts[1..|ts| - 2]), ParseDecimal(ts[|ts| - 1]))
      case (Some(args), Some(id)) => Some((Command(ts[0], args), id))
      case _ => None
  }

  lemma {:induction false} SplitPrefix(w: string, s: string)
    requires NoSpace(w)
    ensures Split(w + s) == [w + Split(s)[0]] + Split(s)[1..]
  {
    if |w| > 0 {
      assert (w + s)[1..] == w[1..] + s;
      SplitPrefix(w[1..], s);
      assert [w[0]] + (w[1..] + Split(s)[0]) == w + Split(s)[0];
    } else {
      var ts := Split(s);
      assert w + s == s && w + ts[0] == ts[0];
      assert ts == [ts[0]] + ts[1..];
    }
  }

  lemma {:induction false} SplitJoin(ts: seq<string>)
    requires |ts| > 0
    requires forall k :: 0 <= k < |ts| ==> NoSpace(ts[k])
    ensures Split(Join(ts)) == ts
  {
    if |ts| == 1 {
      SplitPrefix(ts[0], "");
      assert ts[0] + "" == ts[0];
    } else {
      var j := Join(ts[1..]);
      SplitJoin(ts[1..]);
      assert Join(ts) == ts[0] + (" " + j);
      SplitPrefix(ts[0], " " + j);
      assert (" " + j)[1..] == j;
      assert Split(" " + j) == [""] + ts[1..];
      assert ts[0] + "" == ts[0];
    }
  }

  lemma {:induction false} ArgTokensRoundTrip(args: seq<Arg>)
    requires forall k :: 0 <= k < |args| ==> args[k].flag != ' ' && NoSpace(args[k].value)
    ensures ParseArgs(ArgTokens(args)) == Some(args)
    ensures forall k :: 0 <= k < |ArgTokens(args)| ==> NoSpace(ArgTokens(args)[k])
  {
    if args != [] {
      var ts := ArgTokens(args);
      ArgTokensRoundTrip(args[1..]);
      assert ts[2..] == ArgTokens(args[1..]);
      assert [Arg(args[0].flag, args[0].value)] + args[1..] == args;
      forall k | 0 <= k < |ts| ensures NoSpace(ts[k]) {
        if k >= 2 { assert ts[k] == ArgTokens(args[1..])[k - 2]; }
      }
    }
  }

  /** The engine can recover the command and the transaction id from every line sent. */
  lemma FormatRoundTrip(c: Command, id: nat)
    requires WellFormed(c)
    ensures ParseLine(Format(c, id)) == Some((c, id))
  {
    var ts := Tokens(c, id);
    var at := ArgTokens(c.args);
    ArgTokensRoundTrip(c.args);
    DecimalRoundTrip(id);
    forall k | 0 <= k < |ts| ensures NoSpace(ts[k]) {
      if 1 <= k < |ts| - 2 { assert ts[k] == at[k - 1]; }
    }
    SplitJoin(ts);
    assert ts[1..|ts| - 2] == at;
  }

  /** Different (command, id) pairs never produce the same line. */
  lemma FormatInjective(c1: Command, id1: nat, c2: Command, id2: nat)
    requires WellFormed(c1) && WellFormed(c2)
    requires Format(c1, id1) == Format(c2, id2)
    ensures c1 == c2 && id1 == id2
  {
    FormatRoundTrip(c1, id1);
    FormatRoundTrip(c2, id2);
  }

  /** A command without arguments goes out as `<verb> -i <id>`. */
  lemma PlainCommandLine(verb: string, id: nat)
    ensures Format(Command(verb, []), id) == verb + " -i " + NatToDecimal(id)
  {
    var d := NatToDecimal(id);
    var ts := [verb, "-i", d];
    assert Tokens(Command(verb, []), id) == ts;
    assert Join(ts[2..]) == d;
    assert Join(ts[1..]) == "-i" + " " + d;
  }

  /** An argument goes between the verb and the transaction flag. */
  lemma OneArgCommandLine(verb: string, flag: char, value: string, id: nat)
    ensures Format(Command(verb, [Arg(flag, value)]), id)
         == verb + " -" + [flag] + " " + value + " -i " + NatToDecimal(id)
  {
    var d := NatToDecimal(id);
    var ts := [verb, "-" + [flag], value, "-i", d];
    assert Tokens(Command(verb, [Arg(flag, value)]), id) == ts;
    assert Join(ts[3..]) == "-i" + " " + d;
    assert Join(ts[2..]) == value + " " + ("-i" + " " + d);
    assert Join(ts[1..]) == "-" + [flag] + " " + (value + " " + ("-i" + " " + d));
  }
}
