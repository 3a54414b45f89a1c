/**
 * What a restored environment file says once its bridge was restarted: exactly one deployment line, the
 * last one, from which the deployment can be read again, and every other line as it was.
 */
module Correlation {
  import opened Common
  import opened PanelState
  import opened PanelCommands

  // ----- the identifier can be read back -----

  function DigitValue(c: char): nat {
    if '0' <= c <= '9' then c as int - '0' as int
    else if 'a' <= c <= 'f' then c as int - 'a' as int + 10
    else 0
  }

  /** The number a text of hexadecimal digits stands for. */
  function Value(text: string): nat {
    if text == "" then 0 else 16 * Value(text[..|text| - 1]) + DigitValue(text[|text| - 1])
  }

  predicate HexDigits(text: string) { forall i :: 0 <= i < |text| ==> '0' <= text[i] <= '9' || 'a' <= text[i] <= 'f' }

  lemma DigitReads(d: nat)
    requires d < 16
    ensures DigitValue("0123456789abcdef"[d]) == d && HexDigits(["0123456789abcdef"[d]])
  {
  }

  lemma {:induction false} HexReads(id: Uuid)
    ensures Value(Hex(id)) == id && HexDigits(Hex(id)) && Hex(id) != ""
  {
    DigitReads(id % 16);
    if id >= 16 {
      HexReads(id / 16);
      var front, last := Hex(id / 16), ["0123456789abcdef"[id % 16]];
      assert (front + last)[..|front + last| - 1] == front;
    } else {
      assert Hex(id)[..0] == "";
    }
  }

  lemma {:induction false} ZerosRead(n: nat, text: string)
    requires HexDigits(text)
    ensures Value(Zeros(n) + text) == Value(text) && HexDigits(Zeros(n) + text) && |Zeros(n)| == n
    decreases n, |text|
  {
    if text != "" {
      var front := text[..|text| - 1];
      ZerosRead(n, front);
      assert (Zeros(n) + text)[..|Zeros(n) + text| - 1] == Zeros(n) + front;
    } else if n > 0 {
      ZerosRead(n - 1, "0");
      assert Zeros(n) + "" == Zeros(n - 1) + "0" by { ZerosSame(n); }
      assert Value("0") == 0 by { assert "0"[..0] == ""; }
      assert |Zeros(n)| == n by { assert |Zeros(n - 1)| == n - 1; }
    } else {
      assert Zeros(0) + "" == "";
    }
  }

  lemma {:induction false} ZerosSame(n: nat)
    requires n > 0
    ensures Zeros(n) == Zeros(n - 1) + "0"
  {
    if n > 1 { ZerosSame(n - 1); }
  }

  /** Reading the text of a deployment gives the deployment back, so no two share a text. */
  lemma TextReads(id: Uuid)
    ensures Value(DeploymentText(id)) == id && HexDigits(DeploymentText(id)) && |DeploymentText(id)| >= 32
  {
    HexReads(id);
    ZerosRead(if |Hex(id)| < 32 then 32 - |Hex(id)| else 0, Hex(id));
  }

  // ----- the deployment line -----

  /** Nothing but blanks before the key. */
  predicate NamesDeployment(line: string) {
    exists n | 0 <= n <= |line| ::
      (forall i :: 0 <= i < n ==> line[i] in BLANKS) && "BRILLIANT_DEPLOYMENT_ID=" <= line[n..]
  }

  lemma {:induction false} LineNames(line: string)
    ensures IsDeploymentLine(line) <==> NamesDeployment(line)
  {
    if line != "" && line[0] in BLANKS {
      LineNames(line[1..]);
      if NamesDeployment(line[1..]) {
        var n :| 0 <= n <= |line[1..]| && (forall i :: 0 <= i < n ==> line[1..][i] in BLANKS)
                 && "BRILLIANT_DEPLOYMENT_ID=" <= line[1..][n..];
        assert line[1..][n..] == line[n + 1..];
        assert forall i :: 0 <= i < n + 1 ==> line[i] in BLANKS by {
          forall i | 0 <= i < n + 1 ensures line[i] in BLANKS { if i > 0 { assert line[i] == line[1..][i - 1]; } }
        }
      }
      if NamesDeployment(line) {
        var n :| 0 <= n <= |line| && (forall i :: 0 <= i < n ==> line[i] in BLANKS)
                 && "BRILLIANT_DEPLOYMENT_ID=" <= line[n..];
        assert n > 0;
        assert line[1..][n - 1..] == line[n..];
      }
    } else {
      assert line[0..] == line;
      if NamesDeployment(line) {
        var n :| 0 <= n <= |line| && (forall i :: 0 <= i < n ==> line[i] in BLANKS)
                 && "BRILLIANT_DEPLOYMENT_ID=" <= line[n..];
        assert n == 0;
      }
    }
  }

  /** The file names one deployment, on its last line, and it is this one. */
  predicate Carries(content: Content, deployment: Uuid) {
    && content != []
    && "BRILLIANT_DEPLOYMENT_ID=" <= content[|content| - 1]
    && Value(content[|content| - 1][24..]) == deployment
    && HexDigits(content[|content| - 1][24..]) && |content[|content| - 1]| >= 56
    && forall i :: 0 <= i < |content| ==> (NamesDeployment(content[i]) <==> i == |content| - 1)
  }

  lemma OneDeployment(content: Content, a: Uuid, b: Uuid)
    requires Carries(content, a) && Carries(content, b)
    ensures a == b
  {
  }

  // ----- the other lines -----

  /** `at` lists, in order, where the lines of `after` stood. */
  predicate Listed(before: Content, after: Content, at: seq<nat>) {
    && |at| == |after|
    && (forall k :: 0 <= k < |at| ==> at[k] < |before| && after[k] == before[at[k]])
    && (forall k, l :: 0 <= k < l < |at| ==> at[k] < at[l])
  }

  /** Every line is listed but the deployment lines. */
  predicate AllButDeployment(before: Content, at: seq<nat>) {
    forall i :: 0 <= i < |before| ==> (i in at <==> !NamesDeployment(before[i]))
  }

  predicate KeptAt(before: Content, after: Content, at: seq<nat>) {
    Listed(before, after, at) && AllButDeployment(before, at)
  }

  lemma {:induction false} WithoutKeeps(content: Content) returns (at: seq<nat>)
    ensures KeptAt(content, WithoutDeployment(content), at)
  {
    hide NamesDeployment, Listed, IsDeploymentLine, AllButDeployment;
    if content == [] {
      at := NothingListed();
    } else {
      LineNames(content[0]);
      var rest := WithoutKeeps(content[1..]);
      var shifted := seq(|rest|, k requires 0 <= k < |rest| => rest[k] + 1);
      at := if IsDeploymentLine(content[0]) then shifted else [0] + shifted;
      ShiftedLists(content, WithoutDeployment(content[1..]), rest, shifted);
      ShiftedAll(content, rest, shifted, at);
    }
  }

  lemma NothingListed() returns (at: seq<nat>)
    ensures Listed([], [], at) && AllButDeployment([], at)
  {
    at := [];
  }

  lemma InShifted(rest: seq<nat>, shifted: seq<nat>, i: nat)
    requires |shifted| == |rest| && forall k :: 0 <= k < |rest| ==> shifted[k] == rest[k] + 1
    ensures i in shifted <==> i > 0 && i - 1 in rest
  {
    if i in shifted {
      var k :| 0 <= k < |shifted| && shifted[k] == i;
      assert rest[k] == i - 1;
    }
    if i > 0 && i - 1 in rest {
      var k :| 0 <= k < |rest| && rest[k] == i - 1;
      assert shifted[k] == i;
    }
  }

  lemma ShiftedLists(content: Content, after: Content, rest: seq<nat>, shifted: seq<nat>)
    requires content != [] && Listed(content[1..], after, rest)
    requires |shifted| == |rest| && forall k :: 0 <= k < |rest| ==> shifted[k] == rest[k] + 1
    ensures Listed(content, after, shifted) && Listed(content, [content[0]] + after, [0] + shifted)
  {
  }

  lemma ShiftedAll(content: Content, rest: seq<nat>, shifted: seq<nat>, at: seq<nat>)
    requires content != [] && AllButDeployment(content[1..], rest)
    requires |shifted| == |rest| && forall k :: 0 <= k < |rest| ==> shifted[k] == rest[k] + 1
    requires at == if NamesDeployment(content[0]) then shifted else [0] + shifted
    ensures AllButDeployment(content, at)
  {
    hide NamesDeployment;
    forall i | 0 <= i < |content| ensures i in at <==> !NamesDeployment(content[i]) {
      InShifted(rest, shifted, i);
      assert i in at <==> i in shifted || (i == 0 && !NamesDeployment(content[0]));
      if i > 0 { assert content[1..][i - 1] == content[i]; }
    }
  }

  ghost predicate Kept(before: Content, after: Content) { exists at :: KeptAt(before, after, at) }

  /** The rewritten file carries the fresh deployment and nothing else changes in it. */
  ghost predicate Recorrelated(before: Content, after: Content, deployment: Uuid) {
    && Carries(after, deployment)
    && Kept(before, after[..|after| - 1])
  }

  lemma CorrelateCarries(content: Content, deployment: Uuid)
    ensures Recorrelated(content, Correlate(content, deployment), deployment)
  {
    hide NamesDeployment;
    var kept := WithoutDeployment(content);
    var line := DeploymentKey + DeploymentText(deployment);
    var after := Correlate(content, deployment);
    TextReads(deployment);
    var at := WithoutKeeps(content);
    assert after[..|after| - 1] == kept && after[|after| - 1] == line;
    assert line[24..] == DeploymentText(deployment);
    assert LeftStrip(line) == line;
    LineNames(line);
    forall i | 0 <= i < |kept| ensures !NamesDeployment(after[i]) {
      assert at[i] in at && after[i] == content[at[i]];
    }
  }
}
