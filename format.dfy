/** The log-line helpers of the client: `_targetString` and `formatTime`. */
module Format {
  import opened Wrappers
  import opened Decimal

  const UnknownTarget := "unknown target"

  /** `_targetString(addr, port)`: "addr:port" for a known address. An absent
   *  or empty address (falsy in JavaScript; both are "" here) is reported as
   *  "unknown target". */
  function TargetString(addr: string, port: nat): (r: string)
    ensures addr == "" ==> r == UnknownTarget
    ensures addr != "" ==>
      && |r| >= |addr| + 2
      && r[..|addr|] == addr
      && r[|addr|] == ':'
      && AllDigits(r[|addr| + 1..])
      && Value(r[|addr| + 1..]) == port
      && (|r| == |addr| + 2 || r[|addr| + 1] != '0')
  {
    if addr != "" then
      var r := addr + ":" + Show(port);
      assert r[|addr| + 1..] == Show(port);
      r
    else
      UnknownTarget
  }

  /** Two known targets print alike only when address and port are equal,
   *  and a known target never prints as "unknown target". */
  lemma TargetStringInjective(a1: string, p1: nat, a2: string, p2: nat)
    requires a1 != "" && a2 != ""
    ensures TargetString(a1, p1) == TargetString(a2, p2) <==> a1 == a2 && p1 == p2
    ensures TargetString(a1, p1) != UnknownTarget
  {
    JoinInjective(a1, a2, ':', p1, p2);
    LastSeparator(a1, ':', Show(p1));
    assert ':' !in UnknownTarget;
  }

  /** `formatTime(sec)` for whole seconds: "MM:SS" below an hour, otherwise
   *  "HH:MM:SS" with the minutes taken from the remainder of the hour; every
   *  field is padded to two digits (the hours may take more). */
  function FormatTime(sec: nat): (r: string)
    ensures sec < 3600 ==> |r| == 5 && r[2] == ':'
    ensures sec >= 3600 ==> |r| >= 8 && r[|r| - 6] == ':' && r[|r| - 3] == ':'
  {
    var h := sec / 3600;
    var s := if sec >= 3600 then sec % 3600 else sec;
    var minSec := Pad2(s / 60) + ":" + Pad2(s % 60);
    if sec >= 3600 then Pad2(h) + ":" + minSec else minSec
  }

  /** `s.split(sep)`: the pieces between separators, in order. */
  function Split(s: string, sep: char): (parts: seq<string>)
    ensures |parts| >= 1
  {
    if s == [] then [[]]
    else
      var rest := Split(s[1..], sep);
      if s[0] == sep then [[]] + rest else [[s[0]] + rest[0]] + rest[1..]
  }

  lemma {:induction false} SplitNoSeparator(a: string, sep: char)
    requires sep !in a
    ensures Split(a, sep) == [a]
    decreases |a|
  {
    if a != [] {
      assert a == [a[0]] + a[1..];
      SplitNoSeparator(a[1..], sep);
    }
  }

  lemma {:induction false} SplitJoin(a: string, sep: char, b: string)
    requires sep !in a
    ensures Split(a + [sep] + b, sep) == [a] + Split(b, sep)
    decreases |a|
  {
    var s := a + [sep] + b;
    if a == [] {
      assert s[1..] == b;
    } else {
      assert s[1..] == a[1..] + [sep] + b;
      SplitJoin(a[1..], sep, b);
      assert [a[0]] + a[1..] == a;
    }
  }

  lemma DigitsHaveNoColon(s: string)
    requires AllDigits(s)
    ensures ':' !in s
  {
  }

  /** Reads a clock back: "M:S" or "H:M:S", each field digits only. */
  function ParseClock(r: string): Option<nat>
  {
    ClockValue(Split(r, ':'))
  }

  function ClockValue(f: seq<string>): Option<nat>
  {
    if !forall i :: 0 <= i < |f| ==> f[i] != [] && AllDigits(f[i]) then None
    else if |f| == 2 then Some(Value(f[0]) * 60 + Value(f[1]))
    else if |f| == 3 then Some(Value(f[0]) * 3600 + Value(f[1]) * 60 + Value(f[2]))
    else None
  }

  /** The fields of formatTime: two below an hour, three from an hour on;
   *  minutes and seconds are two digits each and below 60. */
  lemma FormatTimeFields(sec: nat)
    ensures var f := Split(FormatTime(sec), ':');
      && |f| == (if sec < 3600 then 2 else 3)
      && (forall i :: 0 <= i < |f| ==> AllDigits(f[i]) && |f[i]| >= 2)
      && |f[|f| - 2]| == 2 && Value(f[|f| - 2]) < 60
      && |f[|f| - 1]| == 2 && Value(f[|f| - 1]) < 60 && Value(f[|f| - 1]) == sec % 60
      && (sec < 3600 ==> Value(f[0]) == sec / 60)
      && (sec >= 3600 ==> Value(f[0]) == sec / 3600 && Value(f[1]) == sec % 3600 / 60)
  {
    var s := if sec >= 3600 then sec % 3600 else sec;
    var m, ss := Pad2(s / 60), Pad2(s % 60);
    DigitsHaveNoColon(m);
    SplitNoSeparator(ss, ':');
    SplitJoin(m, ':', ss);
    var minSec := m + ":" + ss;
    if sec >= 3600 {
      var h := Pad2(sec / 3600);
      DigitsHaveNoColon(h);
      SplitJoin(h, ':', minSec);
      assert FormatTime(sec) == h + [':'] + minSec;
    }
  }

  lemma ClockValueOf(f: seq<string>, sec: nat)
    requires |f| == (if sec < 3600 then 2 else 3)
    requires forall i :: 0 <= i < |f| ==> AllDigits(f[i]) && |f[i]| >= 2
    requires Value(f[|f| - 1]) == sec % 60
    requires sec < 3600 ==> Value(f[0]) == sec / 60
    requires sec >= 3600 ==> Value(f[0]) == sec / 3600 && Value(f[1]) == sec % 3600 / 60
    ensures ClockValue(f) == Some(sec)
  {
    if sec >= 3600 {
      var h, rest := sec / 3600, sec % 3600;
      assert sec == h * 3600 + rest;
      assert rest == rest / 60 * 60 + rest % 60;
      assert rest % 60 == sec % 60;
    }
  }

  /** formatTime loses nothing: reading the clock back gives the seconds. */
  lemma ParseFormatTime(sec: nat)
    ensures ParseClock(FormatTime(sec)) == Some(sec)
  {
    FormatTimeFields(sec);
    ClockValueOf(Split(FormatTime(sec), ':'), sec);
  }
}
