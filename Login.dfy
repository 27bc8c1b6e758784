/** The login screen's demo-account list: the board path and the label of each demo user. */
module Login {
  import opened Wrappers

  /** A demo user; `id` is the text that string concatenation makes of the user's id. */
  datatype User = User(id: string, name: string, userType: string)

  /** Which board a path leads to. */
  datatype Board = DoctorBoard | UserBoard

  const DoctorPrefix := "/doctor/"
  const UserPrefix := "/user/"
  const BoardSuffix := "/board"

  /** The board a user type leads to: only the exact string "Doctor" selects the doctor board. */
  function BoardFor(userType: string): Board
  {
    if userType == "Doctor" then DoctorBoard else UserBoard
  }

  function Prefix(b: Board): string
  {
    if b == DoctorBoard then DoctorPrefix else UserPrefix
  }

  /** `calcPath2Board(user)`: the role prefix, then the id, then "/board". */
  function CalcPath2Board(user: User): (path: string)
    ensures (|path| >= 8 && path[..8] == "/doctor/") <==> user.userType == "Doctor"
    ensures user.userType != "Doctor" ==> |path| >= 6 && path[..6] == "/user/"
    ensures |path| >= 6 + |user.id| && path[|path| - 6..] == "/board"
    ensures path[|path| - 6 - |user.id|..|path| - 6] == user.id
    ensures |path| == |Prefix(BoardFor(user.userType))| + |user.id| + 6
  {
    var prefix := if user.userType == "Doctor" then DoctorPrefix else UserPrefix;
    var path := prefix + user.id + BoardSuffix;
    assert path[1] == prefix[1];
    assert |path| >= 8 && path[..8] == DoctorPrefix ==> path[1] == path[..8][1];
    path
  }

  /** Reads a board path back into its board and user id; None for any other string. */
  function ParseBoardPath(path: string): Option<(Board, string)>
  {
    if |path| >= |DoctorPrefix| + |BoardSuffix| && path[..|DoctorPrefix|] == DoctorPrefix
       && path[|path| - |BoardSuffix|..] == BoardSuffix
    then Some((DoctorBoard, path[|DoctorPrefix|..|path| - |BoardSuffix|]))
    else if |path| >= |UserPrefix| + |BoardSuffix| && path[..|UserPrefix|] == UserPrefix
       && path[|path| - |BoardSuffix|..] == BoardSuffix
    then Some((UserBoard, path[|UserPrefix|..|path| - |BoardSuffix|]))
    else None
  }

  /** A computed path names its board and its user id, and nothing else can be read from it. */
  lemma ParseCalcPath(user: User)
    ensures ParseBoardPath(CalcPath2Board(user)) == Some((BoardFor(user.userType), user.id))
  {
  }

  /** Two users get the same path only if they have the same id and are sent to the same board. */
  lemma CalcPathInjective(u1: User, u2: User)
    requires CalcPath2Board(u1) == CalcPath2Board(u2)
    ensures u1.id == u2.id && BoardFor(u1.userType) == BoardFor(u2.userType)
  {
    ParseCalcPath(u1);
    ParseCalcPath(u2);
  }

  /** The list entry's text: the user type, one space, the name. */
  function Label(user: User): (text: string)
    ensures |text| == |user.userType| + 1 + |user.name|
    ensures text[..|user.userType|] == user.userType
    ensures text[|user.userType|] == ' '
    ensures text[|user.userType| + 1..] == user.name
  {
    user.userType + " " + user.name
  }
}
