/** `isCancelInput` (src/helpers/isCancelInput.ts). */
module CancelInput {
  import opened Js
  import opened Json

  /** Whether a value read from an update is the word "cancel" or "cancelar". */
  function IsCancelInput(text: Json): (r: bool)
    ensures !text.JStr? ==> !r
  {
    if !text.JStr? then false
    else
      var input := ToLower(Trim(text.s));
      input == "cancel" || input == "cancelar"
  }

  lemma LowerKeepsSpace(c: char)
    ensures IsSpace(LowerChar(c)) == IsSpace(c)
  {
  }

  lemma {:induction false} LowerTrimStartCommute(s: string)
    ensures ToLower(TrimStart(s)) == TrimStart(ToLower(s))
  {
    var l := ToLower(s);
    if |s| > 0 {
      LowerKeepsSpace(s[0]);
      if IsSpace(s[0]) {
        assert l[1..] == ToLower(s[1..]);
        TrimStartStep(s);
        TrimStartStep(l);
        LowerTrimStartCommute(s[1..]);
      } else {
        TrimStartStop(s);
        TrimStartStop(l);
      }
    }
  }

  lemma {:induction false} LowerTrimEndCommute(s: string)
    ensures ToLower(TrimEnd(s)) == TrimEnd(ToLower(s))
  {
    var l := ToLower(s);
    if |s| > 0 {
      var n := |s| - 1;
      LowerKeepsSpace(s[n]);
      if IsSpace(s[n]) {
        assert l[..n] == ToLower(s[..n]);
        TrimEndStep(s);
        TrimEndStep(l);
        LowerTrimEndCommute(s[..n]);
      } else {
        TrimEndStop(s);
        TrimEndStop(l);
      }
    }
  }

  lemma LowerTrimCommute(s: string)
    ensures ToLower(Trim(s)) == Trim(ToLower(s))
  {
    LowerTrimStartCommute(s);
    LowerTrimEndCommute(TrimStart(s));
  }

  /** Changing the letter case of the input never changes the verdict. */
  lemma CancelIgnoresCase(a: string, b: string)
    requires ToLower(a) == ToLower(b)
    ensures IsCancelInput(JStr(a)) == IsCancelInput(JStr(b))
  {
    LowerTrimCommute(a);
    LowerTrimCommute(b);
  }

  /** Adding or removing surrounding whitespace never changes the verdict. */
  lemma CancelIgnoresPadding(w1: string, s: string, w2: string)
    requires AllSpace(w1) && AllSpace(w2)
    ensures IsCancelInput(JStr(w1 + s + w2)) == IsCancelInput(JStr(s))
  {
    TrimIgnoresPadding(w1, s, w2);
  }
}
