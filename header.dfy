/** The top bar: the avatar initials, the role badge and label of the signed-in user, and
    nothing at all when nobody is signed in. The badge style and the label are the shared
    `Roles.RoleBadge` and `Roles.RoleLabel`. */
module Header {

  import opened Wrappers
  import Text
  import AuthContext

  /** `n[0]` of one piece, where the first character of an empty piece is undefined and
      joins as nothing. */
  function FirstChar(piece: string): (c: string)
    ensures |c| <= 1 && (|c| == 1 <==> piece != [])
    ensures piece != [] ==> c == [piece[0]]
  {
    if piece == [] then [] else [piece[0]]
  }

  /** `pieces.map(n => n[0]).join('')`. */
  function Firsts(pieces: seq<string>): (r: string)
    ensures |r| <= |pieces|
  {
    if pieces == [] then [] else FirstChar(pieces[0]) + Firsts(pieces[1..])
  }

  /** `getInitials(name)`: the first character of every space-separated piece, upper-cased;
      never longer than the number of pieces, and never holding a lower-case letter. */
  function GetInitials(name: string): (initials: string)
    ensures |initials| <= |Text.Split(name, ' ')|
    ensures forall i :: 0 <= i < |initials| ==> !Text.IsLowerAscii(initials[i])
  {
    Text.ToUpper(Firsts(Text.Split(name, ' ')))
  }

  /** Over non-empty pieces there is exactly one initial per piece. */
  lemma {:induction false} FirstsOfWords(words: seq<string>)
    requires forall i :: 0 <= i < |words| ==> words[i] != []
    ensures |Firsts(words)| == |words|
    ensures forall i :: 0 <= i < |words| ==> Firsts(words)[i] == words[i][0]
  {
    if words != [] {
      FirstsOfWords(words[1..]);
      assert Firsts(words) == [words[0][0]] + Firsts(words[1..]);
    }
  }

  /** A name made of non-empty words separated by single spaces has one initial per word:
      the upper-cased first letter of that word. */
  lemma InitialsOfWords(words: seq<string>)
    requires |words| >= 1
    requires forall i :: 0 <= i < |words| ==> words[i] != [] && ' ' !in words[i]
    ensures |GetInitials(Text.Join(words, ' '))| == |words|
    ensures forall i :: 0 <= i < |words| ==> GetInitials(Text.Join(words, ' '))[i] == Text.UpperChar(words[i][0])
  {
    forall w | w in words ensures ' ' !in w {
      var i :| 0 <= i < |words| && words[i] == w;
    }
    Text.SplitJoin(words, ' ');
    FirstsOfWords(words);
  }

  /** The empty name, and a name of spaces only, have no initials. */
  lemma EmptyPiecesGiveNothing()
    ensures GetInitials("") == ""
    ensures GetInitials("  ") == ""
  {
  }

  /** A worked example: 'Rajesh Kumar' gives 'RK'. */
  lemma ExampleInitials()
    ensures GetInitials("Rajesh Kumar") == "RK"
  {
    var words := ["Rajesh", "Kumar"];
    assert Text.Join(words, ' ') == "Rajesh Kumar";
    InitialsOfWords(words);
  }

  /** `if (!user) return null`: the bar is rendered only for a signed-in user. */
  function HeaderRendered(user: Option<AuthContext.User>): (rendered: bool)
    ensures rendered <==> user.Some?
  {
    user.Some?
  }
}
