/** The demo user switcher: look a key up in a fixed table of users and
    rewrite the three marker lines of the configuration text so that they name
    that user. The file read and write are outside the model: the text read is
    an input and the text written is an output. */
module SwitchUser {
  import opened Wrappers
  import opened Strings

  datatype User = User(id: string, name: string, role: string)

  const Alice: User := User("user", "Alice Johnson", "USER")
  const Bob: User := User("staff", "Bob Smith", "STAFF")
  const Carol: User := User("admin", "Carol Admin", "ADMIN")

  /** The `USERS` table. */
  const Users: map<string, User> := map["user" := Alice, "staff" := Bob, "admin" := Carol]

  /** The three markers `IAM_CURRENT_USER_<FIELD>: str = Field(default=`. */
  const MarkerHead: string := "IAM_CURRENT_USER_"
  const MarkerTail: string := ": str = Field(default="
  const RoleMarker: string := MarkerHead + "ROLE" + MarkerTail
  const IdMarker: string := MarkerHead + "ID" + MarkerTail
  const NameMarker: string := MarkerHead + "NAME" + MarkerTail

  const Indent: string := "    "

  /** `"value")`, the end of a setting line. */
  function Quoted(value: string): (r: string) { "\"" + value + "\")" }

  /** The line written for a marker, holding `value` as the field default. */
  function SettingLine(marker: string, value: string): (line: string)
    ensures Contains(line, marker)
  {
    ContainsMiddle(Indent, marker, Quoted(value));
    Indent + marker + Quoted(value)
  }

  function RoleLine(u: User): (line: string) { SettingLine(RoleMarker, u.role) }
  function IdLine(u: User): (line: string) { SettingLine(IdMarker, u.id) }
  function NameLine(u: User): (line: string) { SettingLine(NameMarker, u.name) }

  /** One step of the loop: the first marker that occurs in the line, in the
      order ROLE, ID, NAME, decides its replacement. */
  function RewriteLine(u: User, line: string): (r: string)
    ensures Contains(line, RoleMarker) ==> r == RoleLine(u)
    ensures !Contains(line, RoleMarker) && Contains(line, IdMarker) ==> r == IdLine(u)
    ensures !Contains(line, RoleMarker) && !Contains(line, IdMarker) && Contains(line, NameMarker)
            ==> r == NameLine(u)
    ensures !Contains(line, RoleMarker) && !Contains(line, IdMarker) && !Contains(line, NameMarker)
            ==> r == line
  {
    if Contains(line, RoleMarker) then RoleLine(u)
    else if Contains(line, IdMarker) then IdLine(u)
    else if Contains(line, NameMarker) then NameLine(u)
    else line
  }

  predicate Marked(line: string) {
    Contains(line, RoleMarker) || Contains(line, IdMarker) || Contains(line, NameMarker)
  }

  /** The configuration text after switching to `u`. */
  function SwitchedContent(u: User, content: string): (written: string)
    ensures (forall k :: 0 <= k < |Split(content)| ==> !Marked(Split(content)[k])) ==> written == content
    ensures RewriteLine(u, Split(content)[0]) <= written
  {
    var lines := Split(content);
    var out := seq(|lines|, k requires 0 <= k < |lines| => RewriteLine(u, lines[k]));
    JoinSplit(content);
    assert (forall k :: 0 <= k < |lines| ==> !Marked(lines[k])) ==> out == lines;
    Join(out)
  }

  /** `switch_user`: false and nothing written for an unknown key; otherwise
      true, with the rewritten text as what is written back. */
  method Switch(userKey: string, content: string) returns (ok: bool, written: Option<string>)
    ensures ok <==> userKey in Users
    ensures !ok ==> written == None
    ensures ok ==> written == Some(SwitchedContent(Users[userKey], content))
  {
    if userKey !in Users {
      return false, None;
    }
    var user := Users[userKey];
    var lines := Split(content);
    var newLines: seq<string> := [];
    for i := 0 to |lines|
      invariant |newLines| == i
      invariant forall k :: 0 <= k < i ==> newLines[k] == RewriteLine(user, lines[k])
    {
      var line := lines[i];
      var next: string;
      if Contains(line, RoleMarker) {
        next := RoleLine(user);
      } else if Contains(line, IdMarker) {
        next := IdLine(user);
      } else if Contains(line, NameMarker) {
        next := NameLine(user);
      } else {
        next := line;
      }
      assert next == RewriteLine(user, line);
      newLines := newLines + [next];
    }
    ghost var out := seq(|lines|, k requires 0 <= k < |lines| => RewriteLine(user, lines[k]));
    assert newLines == out;
    assert SwitchedContent(user, content) == Join(out);
    return true, Some(Join(newLines));
  }

  // ---------------------------------------------------------------- the table

  /** Every entry's id is its key, and the roles are USER, STAFF and ADMIN. */
  lemma UsersTable()
    ensures Users.Keys == {"user", "staff", "admin"}
    ensures forall k :: k in Users ==> Users[k].id == k
    ensures Users["user"].role == "USER" && Users["staff"].role == "STAFF" && Users["admin"].role == "ADMIN"
  {
  }

  /** A user whose setting lines cannot be mistaken for one another: its values
      are single lines, its id and name have no upper-case 'O' (which the ROLE
      marker has) and its name no upper-case 'D' (which the ID marker has). */
  predicate Unambiguous(u: User) {
    && NewLine !in u.id && NewLine !in u.name && NewLine !in u.role
    && 'O' !in u.id && 'O' !in u.name && 'D' !in u.name
  }

  /** A text none of whose characters is a newline, 'O' or 'D' contains none of them. */
  lemma PlainText(s: string)
    requires forall i :: 0 <= i < |s| ==> s[i] != NewLine && s[i] != 'O' && s[i] != 'D'
    ensures NewLine !in s && 'O' !in s && 'D' !in s
  {
  }

  lemma OneLineText(s: string)
    requires forall i :: 0 <= i < |s| ==> s[i] != NewLine
    ensures NewLine !in s
  {
  }

  lemma AliceIsUnambiguous() ensures Unambiguous(Alice) {
    PlainText(Alice.id);
    PlainText(Alice.name);
    OneLineText(Alice.role);
  }
  lemma BobIsUnambiguous() ensures Unambiguous(Bob) {
    PlainText(Bob.id);
    PlainText(Bob.name);
    OneLineText(Bob.role);
  }
  lemma CarolIsUnambiguous() ensures Unambiguous(Carol) {
    PlainText(Carol.id);
    PlainText(Carol.name);
    OneLineText(Carol.role);
  }

  lemma TableIsUnambiguous(userKey: string)
    requires userKey in Users
    ensures Unambiguous(Users[userKey])
  {
    AliceIsUnambiguous();
    BobIsUnambiguous();
    CarolIsUnambiguous();
    assert Users[userKey] == Alice || Users[userKey] == Bob || Users[userKey] == Carol;
  }

  lemma AbsentFromQuoted(c: char, value: string)
    requires c != '"' && c != ')' && c !in value
    ensures c !in Quoted(value)
  {
  }

  // Which of the letters used below each marker has.
  lemma MarkerHeadLetters() ensures 'O' !in MarkerHead && 'D' !in MarkerHead && NewLine !in MarkerHead {
    PlainText(MarkerHead);
  }
  lemma MarkerTailLetters() ensures 'O' !in MarkerTail && 'D' !in MarkerTail && NewLine !in MarkerTail {
    PlainText(MarkerTail);
  }

  lemma MarkerLetters()
    ensures 'O' in RoleMarker && NewLine !in RoleMarker
    ensures 'D' in IdMarker && 'O' !in IdMarker && NewLine !in IdMarker
    ensures 'D' !in NameMarker && 'O' !in NameMarker && NewLine !in NameMarker
  {
    MarkerHeadLetters();
    MarkerTailLetters();
    assert RoleMarker[|MarkerHead| + 1] == 'O';
    assert IdMarker[|MarkerHead| + 1] == 'D';
  }

  /** A character absent from the marker and the value, and none of the
      fixed characters around them, is absent from the setting line. */
  lemma AbsentFromSettingLine(c: char, marker: string, value: string)
    requires c != ' ' && c != '"' && c != ')' && c !in marker && c !in value
    ensures c !in SettingLine(marker, value)
  {
    assert c !in Indent;
    AbsentFromQuoted(c, value);
  }

  /** The lines written for an unambiguous user contain no newline, each holds
      its own marker, and none holds a marker that takes precedence over its
      own: the ID line lacks the 'O' of ROLE, the NAME line also the 'D' of ID. */
  lemma SettingLinesKeepTheirMarkers(u: User)
    requires Unambiguous(u)
    ensures NewLine !in RoleLine(u) && NewLine !in IdLine(u) && NewLine !in NameLine(u)
    ensures Contains(RoleLine(u), RoleMarker)
    ensures Contains(IdLine(u), IdMarker) && !Contains(IdLine(u), RoleMarker)
    ensures Contains(NameLine(u), NameMarker)
    ensures !Contains(NameLine(u), RoleMarker) && !Contains(NameLine(u), IdMarker)
  {
    MarkerLetters();
    AbsentFromSettingLine(NewLine, RoleMarker, u.role);
    AbsentFromSettingLine(NewLine, IdMarker, u.id);
    AbsentFromSettingLine(NewLine, NameMarker, u.name);
    AbsentFromSettingLine('O', IdMarker, u.id);
    AbsentFromSettingLine('O', NameMarker, u.name);
    AbsentFromSettingLine('D', NameMarker, u.name);
    AbsentCharExcludes(IdLine(u), RoleMarker, 'O');
    AbsentCharExcludes(NameLine(u), RoleMarker, 'O');
    AbsentCharExcludes(NameLine(u), IdMarker, 'D');
  }

  // ---------------------------------------------------------------- line level

  /** Precedence of the `if/elif` chain, and at most one replacement per line:
      the result is the ROLE line whenever ROLE occurs, the ID line when ID but
      not ROLE occurs, the NAME line when only NAME occurs, and the line
      itself when no marker occurs. */
  lemma RewritePrecedence(u: User, line: string)
    ensures Contains(line, RoleMarker) ==> RewriteLine(u, line) == RoleLine(u)
    ensures !Contains(line, RoleMarker) && Contains(line, IdMarker) ==> RewriteLine(u, line) == IdLine(u)
    ensures !Contains(line, RoleMarker) && !Contains(line, IdMarker) && Contains(line, NameMarker)
            ==> RewriteLine(u, line) == NameLine(u)
    ensures !Marked(line) ==> RewriteLine(u, line) == line
  {
  }

  /** Rewriting for `v` after rewriting for `u` is rewriting for `v`; with
      `u == v` this is idempotence of one line. */
  lemma RewriteOverrides(u: User, v: User, line: string)
    requires Unambiguous(u)
    ensures RewriteLine(v, RewriteLine(u, line)) == RewriteLine(v, line)
  {
    SettingLinesKeepTheirMarkers(u);
    if Contains(line, RoleMarker) {
      assert RewriteLine(u, line) == RoleLine(u);
    } else if Contains(line, IdMarker) {
      assert RewriteLine(u, line) == IdLine(u);
    } else if Contains(line, NameMarker) {
      assert RewriteLine(u, line) == NameLine(u);
    } else {
      assert RewriteLine(u, line) == line;
    }
  }

  lemma RewriteKeepsOneLine(u: User, line: string)
    requires Unambiguous(u) && NewLine !in line
    ensures NewLine !in RewriteLine(u, line)
  {
    SettingLinesKeepTheirMarkers(u);
    if Contains(line, RoleMarker) {
      assert RewriteLine(u, line) == RoleLine(u);
    } else if Contains(line, IdMarker) {
      assert RewriteLine(u, line) == IdLine(u);
    } else if Contains(line, NameMarker) {
      assert RewriteLine(u, line) == NameLine(u);
    }
  }

  // ---------------------------------------------------------------- text level

  /** The rewritten text has as many lines as the original; unmarked lines are
      copied at their positions and marked lines become the setting line of
      their first marker. */
  lemma {:induction false} SwitchedLines(u: User, content: string)
    requires Unambiguous(u)
    ensures var before := Split(content);
            var after := Split(SwitchedContent(u, content));
            && |after| == |before|
            && (forall k :: 0 <= k < |after| ==> after[k] == RewriteLine(u, before[k]))
            && (forall k :: 0 <= k < |after| && !Marked(before[k]) ==> after[k] == before[k])
            && (forall k :: 0 <= k < |after| && Contains(before[k], RoleMarker) ==> after[k] == RoleLine(u))
  {
    var lines := Split(content);
    var out := seq(|lines|, k requires 0 <= k < |lines| => RewriteLine(u, lines[k]));
    forall k | 0 <= k < |out|
      ensures NewLine !in out[k]
    {
      RewriteKeepsOneLine(u, lines[k]);
    }
    SplitJoin(out);
  }

  /** A text with no marker line is written back exactly as read. */
  lemma {:induction false} UnmarkedTextUnchanged(u: User, content: string)
    requires forall k :: 0 <= k < |Split(content)| ==> !Marked(Split(content)[k])
    ensures SwitchedContent(u, content) == content
  {
    var lines := Split(content);
    assert seq(|lines|, k requires 0 <= k < |lines| => RewriteLine(u, lines[k])) == lines;
    JoinSplit(content);
  }

  /** Switching to `v` after switching to `u` gives what switching to `v`
      alone gives, so in particular switching twice to the same user is the
      same as switching once. */
  lemma {:induction false} SwitchOverrides(u: User, v: User, content: string)
    requires Unambiguous(u)
    ensures SwitchedContent(v, SwitchedContent(u, content)) == SwitchedContent(v, content)
  {
    var lines := Split(content);
    var once := Split(SwitchedContent(u, content));
    SwitchedLines(u, content);
    forall k | 0 <= k < |lines|
      ensures RewriteLine(v, once[k]) == RewriteLine(v, lines[k])
    {
      RewriteOverrides(u, v, lines[k]);
    }
    assert seq(|once|, k requires 0 <= k < |once| => RewriteLine(v, once[k]))
        == seq(|lines|, k requires 0 <= k < |lines| => RewriteLine(v, lines[k]));
  }

  /** Switching twice with `switch_user(key)` leaves the text of one switch,
      and a later switch to another key overrides the first. */
  lemma SwitchIdempotent(userKey: string, otherKey: string, content: string)
    requires userKey in Users && otherKey in Users
    ensures var u := Users[userKey];
            SwitchedContent(u, SwitchedContent(u, content)) == SwitchedContent(u, content)
    ensures SwitchedContent(Users[otherKey], SwitchedContent(Users[userKey], content))
         == SwitchedContent(Users[otherKey], content)
  {
    TableIsUnambiguous(userKey);
    SwitchOverrides(Users[userKey], Users[otherKey], content);
    SwitchOverrides(Users[userKey], Users[userKey], content);
  }
}
