/**
 * A leader's card (components/LeaderCard.tsx): the initials shown when there
 * is no photo, the subtitle, the bio text and the bio toggle. The same
 * initials rule is used for church logos (components/ChurchCard.tsx and
 * app/admin/page.tsx).
 */
module LeaderCard {
  import opened Wrappers
  import opened Text

  /** `s[0]` joined into a string: an empty piece gives `undefined`, which
      `join` writes as nothing. */
  function Head(p: string): (r: string)
    ensures |r| <= 1 && (p != [] ==> r == [p[0]]) && (p == [] ==> r == [])
  {
    if p == [] then [] else [p[0]]
  }

  /** `(name || '').split(' ').map(s => s[0]).slice(0, 2).join('')`. */
  function Initials(name: string): (r: string)
    ensures |r| <= 2
    ensures ' ' !in r
    ensures name == "" ==> r == ""
  {
    var parts := Split(name, ' ');
    Head(parts[0]) + (if |parts| >= 2 then Head(parts[1]) else [])
  }

  /** The initials read straight off the name: its first character unless
      that is a space, then the character after the first space unless that
      is another space or the end of the name. */
  function InitialsOf(name: string): string {
    var i := IndexFrom(name, ' ', 0);
    (if name != [] && name[0] != ' ' then [name[0]] else [])
    + (if i >= 0 && i + 1 < |name| && name[i + 1] != ' ' then [name[i + 1]] else [])
  }

  /** The first piece of a split is the text before the first separator. */
  lemma FirstPiece(s: string, sep: char)
    ensures var i := IndexFrom(s, sep, 0);
      Split(s, sep)[0] == if i == -1 then s else s[..i]
  {
  }

  /** The first character of the first piece is the first character of the
      text, unless that is the separator. */
  lemma FirstPieceHead(s: string, sep: char)
    ensures Head(Split(s, sep)[0]) == if s != [] && s[0] != sep then [s[0]] else []
  {
    FirstPiece(s, sep);
    var i := IndexFrom(s, sep, 0);
    var p := Split(s, sep)[0];
    assert p == if i == -1 then s else s[..i];
    if s == [] {
      assert p == [];
    } else if s[0] == sep {
      assert i == 0;
      assert p == [];
    } else {
      assert i != 0;
      assert p != [] && p[0] == s[0];
    }
  }

  /** Splitting at the first separator. */
  lemma SplitAtFirst(s: string, sep: char, i: int)
    requires i == IndexFrom(s, sep, 0) && i >= 0
    ensures Split(s, sep) == [s[..i]] + Split(s[i + 1..], sep)
  {
  }

  /** The second piece, when there is one, starts after the first separator. */
  lemma SecondPieceHead(s: string, sep: char)
    ensures var parts := Split(s, sep);
      var i := IndexFrom(s, sep, 0);
      (if |parts| >= 2 then Head(parts[1]) else [])
      == if i >= 0 && i + 1 < |s| && s[i + 1] != sep then [s[i + 1]] else []
  {
    var i := IndexFrom(s, sep, 0);
    if i >= 0 {
      var rest := s[i + 1..];
      SplitAtFirst(s, sep, i);
      FirstPieceHead(rest, sep);
    }
  }

  lemma InitialsMeaning(name: string)
    ensures Initials(name) == InitialsOf(name)
  {
    FirstPieceHead(name, ' ');
    SecondPieceHead(name, ' ');
  }

  /** Consecutive spaces leave an empty piece, which still takes one of the
      two places: "Ann  Bell" shows only "A". */
  lemma DoubleSpaceKeepsOneInitial()
    ensures Initials("Ann  Bell") == "A"
  {
    var name := "Ann  Bell";
    assert name[0] == 'A' && name[1] == 'n' && name[2] == 'n' && name[3] == ' ' && name[4] == ' ';
    var i := IndexFrom(name, ' ', 0);
    assert i == 3;
    assert InitialsOf(name) == "A";
    InitialsMeaning(name);
  }

  /** `leader.title ?? leader.role`. */
  function Subtitle(title: Option<string>, role: Option<string>): (r: Option<string>)
    ensures title.Some? ==> r == title
    ensures title.None? ==> r == role
  {
    if title.Some? then title else role
  }

  const NoBio := "No bio available."

  /** `leader.bio ? leader.bio : 'No bio available.'`: the card never shows
      an empty bio. */
  function BioText(bio: Option<string>): (r: string)
    ensures r != ""
    ensures bio.Some? && bio.value != "" ==> r == bio.value
    ensures bio.None? || bio.value == "" ==> r == NoBio
  {
    if bio.Some? && bio.value != "" then bio.value else NoBio
  }

  /** The updater passed to `setOpen`. */
  function Toggled(open: bool): (r: bool)
    ensures r != open
  {
    !open
  }

  /** Two clicks bring the bio back to where it was. */
  lemma ToggleTwiceRestores(open: bool)
    ensures Toggled(Toggled(open)) == open
  {
  }

  /** The `open` state behind the Read bio / Hide bio button. */
  class BioToggle {
    var open: bool

    constructor()
      ensures !open
    {
      open := false;
    }

    /** `setOpen(o => !o)`. */
    method Toggle()
      modifies this
      ensures open == Toggled(old(open))
    {
      open := !open;
    }

    function ButtonText(): (r: string)
      reads this
      ensures open ==> r == "Hide bio"
      ensures !open ==> r == "Read bio"
    {
      if open then "Hide bio" else "Read bio"
    }
  }
}
