/** The parts of an answer that was cut off at the token limit, and how they are joined. */
module LengthRecovery {
  import Texts

  function LeadingSpace(s: string): string {
    s[..|s| - |Texts.LeftStrip(s)|]
  }

  function TrailingSpace(s: string): string {
    s[|Texts.RightStrip(s)|..]
  }

  function RestoreOuterWhitespace(content: string, original: string): string {
    if original == "" then content else LeadingSpace(original) + content + TrailingSpace(original)
  }

  /** One truncated response: what the hook made of it and what the model wrote. */
  datatype Segment = Segment(clean: string, original: string)

  function Parts(chain: seq<Segment>): seq<string> {
    seq(|chain|, i requires 0 <= i < |chain| => RestoreOuterWhitespace(chain[i].clean, chain[i].original))
  }

  /** The whole answer: the last reply behind the truncated ones, or on its own. */
  function FinalText(chain: seq<Segment>, last: Segment): string {
    if chain == [] then last.clean else Texts.Strip(Texts.Concat(Parts(chain + [last])))
  }

  function Originals(chain: seq<Segment>): seq<string> {
    seq(|chain|, i requires 0 <= i < |chain| => chain[i].original)
  }

  lemma {:induction false} LeftStripIsSuffix(s: string)
    ensures var t := Texts.LeftStrip(s);
            |t| <= |s| && t == s[|s| - |t|..] && (t != "" ==> !Texts.IsSpace(t[0]))
            && forall i | 0 <= i < |s| - |t| :: Texts.IsSpace(s[i])
  {
    if s != "" && Texts.IsSpace(s[0]) {
      LeftStripIsSuffix(s[1..]);
      var t := Texts.LeftStrip(s[1..]);
      assert Texts.LeftStrip(s) == t;
      hide *;
      assert t == s[|s| - |t|..];
      forall i | 0 <= i < |s| - |t| ensures Texts.IsSpace(s[i]) {
        if i > 0 { assert s[1..][i - 1] == s[i]; }
      }
    }
  }

  lemma {:induction false} RightStripIsPrefix(s: string)
    ensures var t := Texts.RightStrip(s);
            |t| <= |s| && t == s[..|t|] && (t != "" ==> !Texts.IsSpace(t[|t| - 1]))
            && forall i | |t| <= i < |s| :: Texts.IsSpace(s[i])
  {
    if s != "" && Texts.IsSpace(s[|s| - 1]) { RightStripIsPrefix(s[..|s| - 1]); }
  }

  lemma {:induction false} RightStripOfSuffix(s: string, k: nat)
    requires k <= |Texts.RightStrip(s)| <= |s|
    ensures Texts.RightStrip(s[k..]) == s[k..|Texts.RightStrip(s)|]
  {
    RightStripIsPrefix(s);
    if s != "" && Texts.IsSpace(s[|s| - 1]) {
      RightStripOfSuffix(s[..|s| - 1], k);
      if k < |s| { assert s[k..][..|s| - k - 1] == s[..|s| - 1][k..]; }
    }
  }

  /** Restoring the outer whitespace of a stripped text gives the text back, except
      for a text that is all whitespace, which is doubled. */
  lemma {:induction false} RestoreIsExactIff(s: string)
    ensures RestoreOuterWhitespace(Texts.Strip(s), s) == s <==> s == "" || !Texts.Blank(s)
  {
    LeftStripIsSuffix(s);
    RightStripIsPrefix(s);
    var l, r := |s| - |Texts.LeftStrip(s)|, |Texts.RightStrip(s)|;
    if l < |s| {
      assert !Texts.IsSpace(s[l]);
      assert l < r;
      RightStripOfSuffix(s, l);
      assert s == s[..l] + s[l..r] + s[r..];
      assert Texts.Strip(s) == s[l..r];
    } else {
      assert Texts.LeftStrip(s) == "";
      assert |RestoreOuterWhitespace(Texts.Strip(s), s)| == if s == "" then 0 else 2 * |s|;
    }
  }

  /** With a hook that only strips, the saved parts concatenate to exactly what the
      model wrote. */
  lemma {:induction false} PartsAreOriginals(chain: seq<Segment>)
    requires forall g | g in chain ::
               g.clean == Texts.Strip(g.original) && (g.original == "" || !Texts.Blank(g.original))
    ensures Texts.Concat(Parts(chain)) == Texts.Concat(Originals(chain))
  {
    if chain != [] {
      var front, g := chain[..|chain| - 1], chain[|chain| - 1];
      assert g in chain;
      RestoreIsExactIff(g.original);
      PartsAreOriginals(front);
      assert Parts(chain)[..|chain| - 1] == Parts(front);
      assert Originals(chain)[..|chain| - 1] == Originals(front);
    }
  }

  /** So a recovered answer is all the model wrote, in order, stripped at its ends. */
  lemma RecoveredAnswerIsWhole(chain: seq<Segment>, last: Segment)
    requires forall g | g in chain + [last] ::
               g.clean == Texts.Strip(g.original) && (g.original == "" || !Texts.Blank(g.original))
    ensures FinalText(chain, last) == Texts.Strip(Texts.Concat(Originals(chain + [last])))
  {
    PartsAreOriginals(chain + [last]);
    if chain == [] {
      var o := Originals([last]);
      assert o == [last.original] && o[..0] == [];
      assert Texts.Concat(o[..0]) + last.original == last.original;
    }
  }

  lemma FinalTextIs(chain: seq<Segment>, last: Segment)
    ensures FinalText(chain, last) ==
            if chain == [] then last.clean
            else Texts.Strip(Texts.Concat(Parts(chain)) + RestoreOuterWhitespace(last.clean, last.original))
  {
    assert Parts(chain + [last])[..|chain|] == Parts(chain);
  }
}
