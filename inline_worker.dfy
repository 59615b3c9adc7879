/**
 * `createInlineWorker`: the worker's code is the text of the worker function strictly between its
 * first `{` and its last `}`, cut out with JavaScript's `indexOf`, `lastIndexOf` and `substring`.
 * Turning that text into a Blob, a URL and a `Worker` is host I/O and is not modelled.
 */
module InlineWorker {

  /** `s.indexOf(c)`: the first position of `c`, or -1. */
  function IndexOf(s: string, c: char): (r: int)
    ensures r == -1 <==> c !in s
    ensures r != -1 ==> 0 <= r < |s| && s[r] == c && c !in s[..r]
  {
    if |s| == 0 then -1
    else if s[0] == c then 0
    else
      var r := IndexOf(s[1..], c);
      assert s[1..] == s[..|s|][1..];
      if r == -1 then -1
      else
        assert s[..r + 1] == [s[0]] + s[1..][..r];
        r + 1
  }

  /** `s.lastIndexOf(c)`: the last position of `c`, or -1. */
  function LastIndexOf(s: string, c: char): (r: int)
    ensures r == -1 <==> c !in s
    ensures r != -1 ==> 0 <= r < |s| && s[r] == c && c !in s[r + 1..]
  {
    if |s| == 0 then -1
    else if s[|s| - 1] == c then |s| - 1
    else
      var r := LastIndexOf(s[..|s| - 1], c);
      assert s == s[..|s| - 1] + [s[|s| - 1]];
      if r == -1 then -1
      else
        assert s[r + 1..] == s[..|s| - 1][r + 1..] + [s[|s| - 1]];
        r
  }

  /** JavaScript's clamping of a `substring` argument into `[0, len]`. */
  function Clamp(k: int, len: nat): (r: nat)
    ensures r <= len
    ensures 0 <= k <= len ==> r == k
    ensures k < 0 ==> r == 0
    ensures k > len ==> r == len
  {
    if k < 0 then 0 else if k > len then len else k
  }

  /**
   * `s.substring(start, end)`: both arguments are clamped into `[0, |s|]` and swapped when the
   * start lies after the end.
   */
  function Substring(s: string, start: int, end: int): (r: string)
    ensures Clamp(start, |s|) <= Clamp(end, |s|) ==> r == s[Clamp(start, |s|)..Clamp(end, |s|)]
    ensures Clamp(end, |s|) < Clamp(start, |s|) ==> r == s[Clamp(end, |s|)..Clamp(start, |s|)]
  {
    var a := Clamp(start, |s|);
    var b := Clamp(end, |s|);
    if a <= b then s[a..b] else s[b..a]
  }

  /** `createInlineWorker`'s cut: `funcStr.substring(funcStr.indexOf('{') + 1, funcStr.lastIndexOf('}'))`. */
  function WorkerCode(funcStr: string): (code: string)
    ensures '{' in funcStr && '}' in funcStr && IndexOf(funcStr, '{') < LastIndexOf(funcStr, '}') ==>
      code == funcStr[IndexOf(funcStr, '{') + 1..LastIndexOf(funcStr, '}')]
  {
    Substring(funcStr, IndexOf(funcStr, '{') + 1, LastIndexOf(funcStr, '}'))
  }

  /**
   * With `{` before the last `}`, the code is `j - i - 1` characters long and the source is the
   * text through the `{`, the code, and the text from the `}` on.
   */
  lemma WorkerCodeRebuilds(funcStr: string)
    requires '{' in funcStr && '}' in funcStr && IndexOf(funcStr, '{') < LastIndexOf(funcStr, '}')
    ensures var i := IndexOf(funcStr, '{');
      var j := LastIndexOf(funcStr, '}');
      |WorkerCode(funcStr)| == j - i - 1 &&
      funcStr[..i + 1] + WorkerCode(funcStr) + funcStr[j..] == funcStr
  {
    var i := IndexOf(funcStr, '{');
    var j := LastIndexOf(funcStr, '}');
    ThreeParts(funcStr, i + 1, j);
  }

  /** Cutting a text at two positions and joining the three parts gives the text back. */
  lemma ThreeParts(s: string, a: nat, b: nat)
    requires a <= b <= |s|
    ensures |s[a..b]| == b - a && s[..a] + s[a..b] + s[b..] == s
  {
    assert s[..a] + s[a..b] == s[..b];
    assert s[..b] + s[b..] == s;
  }

  /**
   * Without the two braces in order, `substring` clamps and swaps: no brace gives the empty text,
   * only `{` the prefix through it, only `}` the prefix before it, and `}` before `{` the text from
   * the `}` through the `{`.
   */
  lemma WorkerCodeUnbalanced(funcStr: string)
    ensures '{' !in funcStr && '}' !in funcStr ==> WorkerCode(funcStr) == []
    ensures '{' in funcStr && '}' !in funcStr ==> WorkerCode(funcStr) == funcStr[..IndexOf(funcStr, '{') + 1]
    ensures '{' !in funcStr && '}' in funcStr ==> WorkerCode(funcStr) == funcStr[..LastIndexOf(funcStr, '}')]
    ensures '{' in funcStr && '}' in funcStr && LastIndexOf(funcStr, '}') < IndexOf(funcStr, '{') ==>
      WorkerCode(funcStr) == funcStr[LastIndexOf(funcStr, '}')..IndexOf(funcStr, '{') + 1]
  {
  }

  /**
   * With both braces present, in order, the extracted code holds no `{` before the first one's
   * successor and no `}` after the last one: it is exactly the body between the outermost braces.
   */
  lemma {:induction false} WorkerCodeIsBody(funcStr: string, i: nat, j: nat)
    requires i < j < |funcStr| && funcStr[i] == '{' && funcStr[j] == '}'
    requires '{' !in funcStr[..i] && '}' !in funcStr[j + 1..]
    ensures WorkerCode(funcStr) == funcStr[i + 1..j]
  {
    FirstIndex(funcStr, '{', i);
    LastIndex(funcStr, '}', j);
  }

  /** A position holding `c` with no `c` before it is `IndexOf`. */
  lemma {:induction false} FirstIndex(s: string, c: char, i: nat)
    requires i < |s| && s[i] == c && c !in s[..i]
    ensures IndexOf(s, c) == i
  {
    assert s[i] in s;
  }

  /** A position holding `c` with no `c` after it is `LastIndexOf`. */
  lemma {:induction false} LastIndex(s: string, c: char, j: nat)
    requires j < |s| && s[j] == c && c !in s[j + 1..]
    ensures LastIndexOf(s, c) == j
  {
    assert s[j] in s;
  }
}
