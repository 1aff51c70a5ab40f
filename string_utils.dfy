/**
 * Word capitalisation (src/utils/stringUtils.ts). Both functions split on
 * single spaces, rewrite each word and join with single spaces again, so
 * runs of spaces survive as empty words. Case mapping is ASCII.
 */
module StringUtils {
  import opened Js

  /** Upper-case first character, lower-case rest; the empty word stays empty. */
  function CapitalizeWord(w: string): (r: string)
    ensures |r| == |w|
  {
    if w == "" then w else [UpperChar(w[0])] + ToLower(w[1..])
  }

  function CapitalizeEach(ws: seq<string>): (r: seq<string>)
    ensures |r| == |ws| && forall i :: 0 <= i < |ws| ==> r[i] == CapitalizeWord(ws[i])
  {
    seq(|ws|, i requires 0 <= i < |ws| => CapitalizeWord(ws[i]))
  }

  /** `capitalizeWords`. */
  function CapitalizeWords(s: string): string
  {
    if s == "" then s else Join(CapitalizeEach(Split(s, ' ')), ' ')
  }

  /** Words that stay lower-case after the first position. */
  const LowercaseWords: seq<string> := ["of", "the", "and", "in", "on", "at", "to", "for", "with", "by"]

  /** How `capitalizeName` rewrites the word at `index`. */
  function NameWord(w: string, index: nat): string
  {
    if w == "" then w
    else if index == 0 then CapitalizeWord(w)
    else if ToLower(w) in LowercaseWords then ToLower(w)
    else CapitalizeWord(w)
  }

  function NameWordsFrom(ws: seq<string>, start: nat): (r: seq<string>)
    ensures |r| == |ws| && forall i :: 0 <= i < |ws| ==> r[i] == NameWord(ws[i], start + i)
  {
    seq(|ws|, i requires 0 <= i < |ws| => NameWord(ws[i], start + i))
  }

  /** `capitalizeName`. */
  function CapitalizeName(name: string): string
  {
    if name == "" then name else Join(NameWordsFrom(Split(name, ' '), 0), ' ')
  }

  lemma CapitalizeWordNoSpace(w: string)
    requires ' ' !in w
    ensures ' ' !in CapitalizeWord(w)
  {
    var r := CapitalizeWord(w);
    forall i | 0 <= i < |r| ensures r[i] != ' ' {
      assert w[i] != ' ';
      if w != "" && i > 0 {
        assert r[i] == LowerChar(w[i]);
      }
    }
  }

  lemma NameWordNoSpace(w: string, index: nat)
    requires ' ' !in w
    ensures ' ' !in NameWord(w, index)
  {
    CapitalizeWordNoSpace(w);
    forall i | 0 <= i < |w| ensures ToLower(w)[i] != ' ' {
      assert w[i] != ' ';
    }
  }

  /** The words of `capitalizeWords(s)` are the words of `s`, one for one, each capitalised. */
  lemma CapitalizeWordsWords(s: string)
    requires s != ""
    ensures Split(CapitalizeWords(s), ' ') == CapitalizeEach(Split(s, ' '))
  {
    var ws := Split(s, ' ');
    forall k | 0 <= k < |ws| ensures ' ' !in CapitalizeEach(ws)[k] {
      CapitalizeWordNoSpace(ws[k]);
    }
    SplitJoin(CapitalizeEach(ws), ' ');
  }

  /** Splitting on ' ' and re-joining keeps the number of words, empty words included. */
  lemma CapitalizeWordsKeepsWordCount(s: string)
    ensures |Split(CapitalizeWords(s), ' ')| == |Split(s, ' ')|
  {
    if s != "" { CapitalizeWordsWords(s); }
  }

  lemma CapitalizeWordTwice(w: string)
    ensures CapitalizeWord(CapitalizeWord(w)) == CapitalizeWord(w)
  {
    if w != "" {
      var r := CapitalizeWord(w);
      assert r[1..] == ToLower(w[1..]);
    }
  }

  /** The early return for the empty string agrees with the split/map/join path. */
  lemma CapitalizeWordsEmpty()
    ensures CapitalizeWords("") == Join(CapitalizeEach(Split("", ' ')), ' ')
  {
    assert Split("", ' ') == [""];
    assert CapitalizeEach([""]) == [""];
  }

  /** `capitalizeWords` applied twice equals applying it once. */
  lemma CapitalizeWordsIdempotent(s: string)
    ensures CapitalizeWords(CapitalizeWords(s)) == CapitalizeWords(s)
  {
    if s != "" {
      var ws := Split(s, ' ');
      var cs := CapitalizeEach(ws);
      var once := CapitalizeWords(s);
      if once == "" {
        CapitalizeWordsEmpty();
      } else {
        CapitalizeWordsWords(s);
        forall k | 0 <= k < |cs| ensures CapitalizeWord(cs[k]) == cs[k] {
          CapitalizeWordTwice(ws[k]);
        }
        assert CapitalizeEach(cs) == cs;
      }
    }
  }

  /** The words of `capitalizeName(name)`: the first capitalised, later listed words lower-cased, the rest capitalised. */
  lemma CapitalizeNameWords(name: string)
    requires name != ""
    ensures Split(CapitalizeName(name), ' ') == NameWordsFrom(Split(name, ' '), 0)
  {
    var ws := Split(name, ' ');
    forall k | 0 <= k < |ws| ensures ' ' !in NameWordsFrom(ws, 0)[k] {
      NameWordNoSpace(ws[k], k);
    }
    SplitJoin(NameWordsFrom(ws, 0), ' ');
  }

  /** Even a listed word such as "of" is capitalised when it comes first. */
  lemma CapitalizeNameFirstWord(name: string)
    requires name != "" && Split(name, ' ')[0] != ""
    ensures var first := Split(CapitalizeName(name), ' ')[0];
            first == CapitalizeWord(Split(name, ' ')[0]) && first[0] == UpperChar(name[0])
  {
    CapitalizeNameWords(name);
    var ws := Split(name, ' ');
    JoinSplit(name, ' ');
    assert name[0] == ws[0][0] by {
      if |ws| == 1 { assert Join(ws, ' ') == ws[0]; }
      else { assert Join(ws, ' ') == ws[0] + [' '] + Join(ws[1..], ' '); }
    }
  }
}
