/** The entry point: `main` in cmd/main.go.

    The agent starts consuming only when each of its seven broker settings
    holds something besides white space; otherwise it shows the usage tips.
    The settings are passed on untrimmed. Flag parsing itself and the tips'
    text are not modelled. */
module Cli {

  /** The seven command-line flags, each "" when not given. */
  datatype Flags = Flags(
    user: string, password: string, host: string, port: string,
    exchangeName: string, queueName: string, routingKey: string)

  datatype Action = StartConsuming(flags: Flags) | ShowTips

  /** White space as Go's `unicode.IsSpace` defines it: the Latin-1 spaces
      and the other characters with the Unicode White_Space property. */
  predicate IsSpace(c: char)
  {
    || c == '\t' || c == '\n' || c == '\U{000B}' || c == '\U{000C}' || c == '\r' || c == ' '
    || c == '\U{0085}' || c == '\U{00A0}' || c == '\U{1680}'
    || ('\U{2000}' <= c <= '\U{200A}')
    || c == '\U{2028}' || c == '\U{2029}' || c == '\U{202F}' || c == '\U{205F}' || c == '\U{3000}'
  }

  /** The string holds a character that is not white space. */
  predicate Given(s: string)
  {
    exists i :: 0 <= i < |s| && !IsSpace(s[i])
  }

  /** `s` without its leading white space. */
  function TrimLeft(s: string): (r: string)
    ensures |r| <= |s| && r == s[|s| - |r|..]
    ensures r == [] || !IsSpace(r[0])
    ensures forall i :: 0 <= i < |s| - |r| ==> IsSpace(s[i])
  {
    if s != [] && IsSpace(s[0]) then TrimLeft(s[1..]) else s
  }

  /** `s` without its trailing white space. */
  function TrimRight(s: string): (r: string)
    ensures |r| <= |s| && r == s[..|r|]
    ensures r == [] || !IsSpace(r[|r| - 1])
    ensures forall i :: |r| <= i < |s| ==> IsSpace(s[i])
  {
    if s != [] && IsSpace(s[|s| - 1]) then TrimRight(s[..|s| - 1]) else s
  }

  /** Go's `strings.TrimSpace`: the part of `s` between its leading and its
      trailing white space. */
  function TrimSpace(s: string): string
  {
    TrimRight(TrimLeft(s))
  }

  /** The trimmed string is empty exactly when `s` is all white space, and
      otherwise starts and ends with a character that is not. */
  lemma TrimSpaceShape(s: string)
    ensures var r := TrimSpace(s);
      && (r == [] <==> !Given(s))
      && (r != [] ==> !IsSpace(r[0]) && !IsSpace(r[|r| - 1]))
  {
    var left := TrimLeft(s);
    var r := TrimRight(left);
    if left == [] {
      assert forall i :: 0 <= i < |s| ==> IsSpace(s[i]);
    } else {
      var k := |s| - |left|;
      assert left[0] == s[k] && !IsSpace(s[k]);
      assert r != [];
      assert r[0] == left[0];
    }
  }

  /** main (lines 176-180): the decision to start the consumer. */
  function Launch(f: Flags): (l: Action)
    ensures l.StartConsuming? <==>
      && Given(f.user) && Given(f.password) && Given(f.host) && Given(f.port)
      && Given(f.exchangeName) && Given(f.queueName) && Given(f.routingKey)
    ensures l.StartConsuming? ==> l.flags == f
  {
    TrimSpaceShape(f.user); TrimSpaceShape(f.password); TrimSpaceShape(f.host); TrimSpaceShape(f.port);
    TrimSpaceShape(f.exchangeName); TrimSpaceShape(f.queueName); TrimSpaceShape(f.routingKey);
    if && TrimSpace(f.user) != "" && TrimSpace(f.password) != "" && TrimSpace(f.host) != ""
       && TrimSpace(f.port) != "" && TrimSpace(f.exchangeName) != "" && TrimSpace(f.queueName) != ""
       && TrimSpace(f.routingKey) != ""
    then StartConsuming(f)
    else ShowTips
  }

  /** Trimming keeps every character from the first to the last that is not
      white space, so trimming twice changes nothing. */
  lemma {:induction false} TrimSpaceIdempotent(s: string)
    ensures TrimSpace(TrimSpace(s)) == TrimSpace(s)
  {
    var r := TrimSpace(s);
    TrimSpaceShape(s);
    if r != [] {
      assert TrimLeft(r) == r;
      assert TrimRight(r) == r;
    }
  }
}
