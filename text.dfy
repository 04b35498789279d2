/** The few string operations of Python that the chat script relies on:
    `str.startswith`, `sep.join(pieces)` and the concatenation of a stream
    of text fragments; and `EndsWith`, the predicate in which the ending of
    the prompt is stated. */
module Text {

  /** `s.startswith(prefix)`, defined character by character. */
  function StartsWith(s: string, prefix: string): (b: bool)
    ensures b <==> |prefix| <= |s| && s[..|prefix|] == prefix
    decreases prefix
  {
    if prefix == [] then true
    else if s == [] || s[0] != prefix[0] then false
    else
      var rest := StartsWith(s[1..], prefix[1..]);
      assert |prefix| <= |s| ==> s[..|prefix|] == [s[0]] + s[1..][..|prefix| - 1];
      assert prefix == [prefix[0]] + prefix[1..];
      rest
  }

  /** `s` ends with `suffix`: a specification predicate, not an operation of
      the script. */
  predicate EndsWith(s: string, suffix: string)
  {
    |suffix| <= |s| && s[|s| - |suffix|..] == suffix
  }

  /** A string ends with whatever was appended to it last. */
  lemma EndsWithAppended(s: string, suffix: string)
    ensures EndsWith(s + suffix, suffix)
  {
    assert (s + suffix)[|s|..] == suffix;
  }

  /** `sep.join(pieces)`: the pieces in order, with `sep` between each
      neighbouring pair and nowhere else. */
  function Join(pieces: seq<string>, sep: string): string
  {
    if |pieces| == 0 then ""
    else if |pieces| == 1 then pieces[0]
    else pieces[0] + sep + Join(pieces[1..], sep)
  }

  /** Appending one more piece adds the separator and that piece at the end. */
  lemma {:induction false} JoinSnoc(pieces: seq<string>, last: string, sep: string)
    requires pieces != []
    ensures Join(pieces + [last], sep) == Join(pieces, sep) + sep + last
  {
    if |pieces| == 1 {
      assert pieces + [last] == [pieces[0], last];
      assert [pieces[0], last][1..] == [last];
    } else {
      assert (pieces + [last])[1..] == pieces[1..] + [last];
      JoinSnoc(pieces[1..], last, sep);
    }
  }

  /** Closing the list with a piece and an empty piece appends the
      separator, that piece and the separator again. */
  lemma JoinClosedBy(pieces: seq<string>, last: string, sep: string)
    requires pieces != []
    ensures Join(pieces + [last, ""], sep) == Join(pieces, sep) + (sep + last + sep)
    ensures EndsWith(Join(pieces + [last, ""], sep), sep + last + sep)
  {
    assert pieces + [last, ""] == (pieces + [last]) + [""];
    JoinSnoc(pieces, last, sep);
    JoinSnoc(pieces + [last], "", sep);
    EndsWithAppended(Join(pieces, sep), sep + last + sep);
  }

  /** Every character of every piece, in order, with nothing in between. */
  function Concat(fragments: seq<string>): string
  {
    if fragments == [] then "" else fragments[0] + Concat(fragments[1..])
  }

  lemma {:induction false} ConcatSnoc(fragments: seq<string>, last: string)
    ensures Concat(fragments + [last]) == Concat(fragments) + last
  {
    if fragments == [] {
      assert [] + [last] == [last];
      assert [last][1..] == [];
    } else {
      assert (fragments + [last])[1..] == fragments[1..] + [last];
      ConcatSnoc(fragments[1..], last);
    }
  }
}
