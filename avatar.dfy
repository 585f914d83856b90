/** The avatar (src/components/couple/Avatar.tsx): the initials of a name,
    and the choice between the picture and the initials. */
module Avatar {
  import opened Common
  import opened Text

  /** `.map(n => n[0]).join("")`: the first character of every piece; an
      empty piece gives `undefined`, which the join renders as nothing. */
  function Heads(parts: seq<string>): (r: string)
    ensures |r| <= |parts|
  {
    if parts == [] then []
    else (if parts[0] == [] then [] else [parts[0][0]]) + Heads(parts[1..])
  }

  /** `initials`: the heads of the space-separated words, upper-cased, at
      most two of them. */
  function Initials(name: string): (r: string)
    ensures |r| <= 2
    ensures name == "" ==> r == ""
  {
    Take(Upper(Heads(Split(name, ' '))), 2)
  }

  lemma {:induction false} HeadsAppend(a: seq<string>, b: seq<string>)
    ensures Heads(a + b) == Heads(a) + Heads(b)
  {
    if a != [] {
      assert (a + b)[1..] == a[1..] + b;
      HeadsAppend(a[1..], b);
    } else {
      assert a + b == b;
    }
  }

  /** An empty word, which a doubled space makes, adds nothing. */
  lemma EmptyWordAddsNothing(a: seq<string>, b: seq<string>)
    ensures Heads(a + [""] + b) == Heads(a + b)
  {
    HeadsAppend(a + [""], b);
    HeadsAppend(a, [""]);
    HeadsAppend(a, b);
    assert Heads([""]) == [];
  }

  /** For non-empty words, the heads are the words' first characters, one
      per word, in order. */
  lemma {:induction false} HeadsOfWords(ws: seq<string>)
    requires forall k :: 0 <= k < |ws| ==> ws[k] != []
    ensures |Heads(ws)| == |ws|
    ensures forall k :: 0 <= k < |ws| ==> Heads(ws)[k] == ws[k][0]
  {
    if ws != [] {
      HeadsOfWords(ws[1..]);
      forall k | 0 < k < |ws| ensures Heads(ws)[k] == ws[k][0] {
        assert ws[1..][k - 1] == ws[k];
      }
    }
  }

  /** A name made of words joined by spaces (empty words standing for
      doubled spaces) has as initials the upper-cased heads of its words,
      at most two. */
  lemma InitialsOfWords(ws: seq<string>)
    requires |ws| >= 1
    requires forall k :: 0 <= k < |ws| ==> ' ' !in ws[k]
    ensures Initials(Join(ws, ' ')) == Take(Upper(Heads(ws)), 2)
  {
    SplitJoin(ws, ' ');
  }

  /** What the avatar shows. */
  datatype Face = Picture(src: string) | Letters(initials: string)

  /** The picture when `src` is truthy, the initials otherwise. */
  function FaceOf(src: Option<string>, name: string): (f: Face)
    ensures f.Picture? <==> Given(src)
    ensures f.Picture? ==> f.src == src.value
    ensures f.Letters? ==> f.initials == Initials(name)
  {
    if Given(src) then Picture(src.value) else Letters(Initials(name))
  }
}
