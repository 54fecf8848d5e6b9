/** The profile activity (ProfileActivity.kt): the profile overview with its
    load fallbacks and avatar initial, and the three sub-screens — edit
    profile, change password and tea preferences. Every screen works on the
    fixed user id "user_123" under the "users" node. */
module Profile {
  import opened Common
  import opened Text
  import opened Store

  /** The profile record: `UserModel` with its Kotlin defaults. */
  datatype UserModel = UserModel(fullName: string, email: string, preferences: seq<string>)

  const DefaultName := "Tea Enthusiast"
  const DefaultEmail := "user@sippure.com"
  const UserId := "user_123"

  /** The profile used when nothing usable was read. */
  function DefaultUser(): UserModel {
    UserModel(DefaultName, DefaultEmail, [])
  }

  /** "users/user_123". */
  function UserNode(): Path {
    ["users", UserId]
  }

  /** The record `setValue(user)` stores. */
  function Encode(u: UserModel): Record {
    map["fullName" := VStr(u.fullName), "email" := VStr(u.email), "preferences" := VList(u.preferences)]
  }

  /** `child(key).value as? String ?: default`. */
  function StringChild(rec: Record, key: string, default: string): string {
    if key in rec && rec[key].VStr? then rec[key].str else default
  }

  /** `child(key).value as? List<String> ?: emptyList()`. */
  function ListChild(rec: Record, key: string): seq<string> {
    if key in rec && rec[key].VList? then rec[key].items else []
  }

  /** The profile read from an existing record, child by child, with defaults. */
  function Decode(rec: Record): (u: UserModel)
    ensures "fullName" !in rec ==> u.fullName == DefaultName
    ensures "email" !in rec ==> u.email == DefaultEmail
    ensures "preferences" !in rec ==> u.preferences == []
  {
    UserModel(StringChild(rec, "fullName", DefaultName), StringChild(rec, "email", DefaultEmail), ListChild(rec, "preferences"))
  }

  /** A stored profile reads back as itself. */
  lemma DecodeEncode(u: UserModel)
    ensures Decode(Encode(u)) == u
  {
  }

  /** A one-shot read: the node's record if it exists (None when it does not),
      or a failure with the exception's message. */
  datatype ReadOutcome = Loaded(snapshot: Option<Record>) | LoadFailed(message: Option<string>)

  /** The read of a node of the database. */
  function ReadNode(db: Db, path: Path): ReadOutcome {
    Loaded(if path in db then Some(db[path]) else None)
  }

  /** What the overview shows after its load, the write-back it issues, and its toast. */
  datatype ProfileLoad = ProfileLoad(user: UserModel, writeBack: Option<Write>, toast: Option<string>)

  /** The overview's load: an existing record is read with defaults; a missing
      one is replaced by the default profile, which is written back; a failed
      read shows the default profile, a toast, and writes nothing. */
  function LoadProfile(o: ReadOutcome): (r: ProfileLoad)
    ensures o.Loaded? && o.snapshot.Some? ==> r == ProfileLoad(Decode(o.snapshot.value), None, None)
    ensures o.Loaded? && o.snapshot.None?
      ==> r == ProfileLoad(DefaultUser(), Some(SetRecord(UserNode(), Encode(DefaultUser()))), None)
    ensures o.LoadFailed?
      ==> r == ProfileLoad(DefaultUser(), None, Some("Failed to load profile: " + Shown(o.message)))
  {
    match o
    case Loaded(Some(rec)) => ProfileLoad(Decode(rec), None, None)
    case Loaded(None) => ProfileLoad(DefaultUser(), Some(SetRecord(UserNode(), Encode(DefaultUser()))), None)
    case LoadFailed(m) => ProfileLoad(DefaultUser(), None, Some("Failed to load profile: " + Shown(m)))
  }

  /** After the write-back of a missing profile, the next load finds the
      default profile and writes nothing. */
  lemma WriteBackIsStable(db: Db)
    requires UserNode() !in db
    ensures var first := LoadProfile(ReadNode(db, UserNode()));
      first.writeBack.Some?
      && LoadProfile(ReadNode(Apply(db, first.writeBack.value), UserNode())) == ProfileLoad(first.user, None, None)
  {
    DecodeEncode(DefaultUser());
  }

  /** The avatar letter: the first character of the name, upper-cased, or "U"
      when there is no name or it is empty. */
  function AvatarInitial(name: Option<string>): (r: string)
    ensures name.None? || name.value == "" ==> r == "U"
    ensures name.Some? && name.value != "" ==> r == [Upper(name.value[0])]
  {
    match name
    case Some(n) => if |n| > 0 then [Upper(n[0])] else "U"
    case None => "U"
  }

  /** The avatar depends on the first character only; the default profile shows "T". */
  lemma AvatarUsesFirstCharacter(a: string, b: string)
    requires |a| > 0 && |b| > 0 && a[0] == b[0]
    ensures AvatarInitial(Some(a)) == AvatarInitial(Some(b))
    ensures AvatarInitial(Some(DefaultUser().fullName)) == "T"
  {
  }

  // ---------------------------------------------------------------------
  // Edit profile

  datatype EditForm = EditForm(fullName: string, email: string, loading: bool)

  function InitialEditForm(): EditForm {
    EditForm("", "", false)
  }

  /** The edit form's load: name and email from the record with defaults, the
      defaults for a missing record or a failed read; nothing is written. */
  function LoadEditForm(f: EditForm, o: ReadOutcome): (r: EditForm)
    ensures r.loading == f.loading
    ensures o.Loaded? && o.snapshot.Some?
      ==> r.fullName == Decode(o.snapshot.value).fullName && r.email == Decode(o.snapshot.value).email
    ensures !(o.Loaded? && o.snapshot.Some?) ==> r.fullName == DefaultName && r.email == DefaultEmail
  {
    match o
    case Loaded(Some(rec)) => f.(fullName := StringChild(rec, "fullName", DefaultName), email := StringChild(rec, "email", DefaultEmail))
    case _ => f.(fullName := DefaultName, email := DefaultEmail)
  }

  /** The edit form's only check: neither field may be blank. */
  function ValidateEdit(f: EditForm): (v: Verdict)
    ensures v == Ok <==> !IsBlank(f.fullName) && !IsBlank(f.email)
    ensures v != Ok ==> v == Error("All fields are required")
  {
    if IsBlank(f.fullName) || IsBlank(f.email) then Error("All fields are required") else Ok
  }

  /** "Save Changes": a failed check shows its message; otherwise the form
      enters the loading state. The button is disabled while loading. */
  function EditSaveClick(f: EditForm): (r: Step<EditForm, Write>)
    ensures r.call == None && r.nav == Stay
    ensures f.loading ==> r == Quiet(f)
    ensures !f.loading && ValidateEdit(f).Error? ==> r.state == f && r.toast == Some(ValidateEdit(f).message)
    ensures !f.loading && ValidateEdit(f) == Ok ==> r.state == f.(loading := true) && r.toast == None
  {
    if f.loading then Quiet(f)
    else match ValidateEdit(f)
      case Error(m) => Step(f, Some(m), None, Stay)
      case Ok => Step(f.(loading := true), None, None, Stay)
  }

  /** How a launched save went: it completed, it failed with a message, or
      issuing it threw before any write was made. */
  datatype SaveOutcome = Saved | SaveFailed(message: Option<string>) | Threw(message: Option<string>)

  /** The save the loading state launches, together with its completion. The
      loading flag drops as soon as the write is issued. */
  function EditSaveEffect(f: EditForm, o: SaveOutcome): (r: Step<EditForm, Write>)
    requires f.loading
    ensures !r.state.loading && r.state.fullName == f.fullName && r.state.email == f.email
    ensures !o.Threw? ==> r.call == Some(SetRecord(UserNode(), Encode(UserModel(f.fullName, f.email, []))))
    ensures o.Threw? ==> r.call == None && r.toast == Some("Error: " + Shown(o.message))
    ensures o.Saved? ==> r.toast == Some("Profile saved!") && r.nav == Start(ProfileHome, false)
    ensures o.SaveFailed? ==> r.toast == Some("Save failed: " + Shown(o.message))
    ensures !o.Saved? ==> r.nav == Stay
  {
    var done := f.(loading := false);
    var w := SetRecord(UserNode(), Encode(UserModel(f.fullName, f.email, [])));
    match o
    case Saved => Step(done, Some("Profile saved!"), Some(w), Start(ProfileHome, false))
    case SaveFailed(m) => Step(done, Some("Save failed: " + Shown(m)), Some(w), Stay)
    case Threw(m) => Step(done, Some("Error: " + Shown(m)), None, Stay)
  }

  /** A saved edit replaces the whole profile: the name and email read back
      as entered and the tea preferences read back empty. */
  lemma EditSaveClearsPreferences(db: Db, f: EditForm)
    requires f.loading
    ensures var w := EditSaveEffect(f, Saved).call.value;
      LoadProfile(ReadNode(Apply(db, w), UserNode())).user == UserModel(f.fullName, f.email, [])
  {
    DecodeEncode(UserModel(f.fullName, f.email, []));
  }

  // ---------------------------------------------------------------------
  // Change password

  datatype PasswordForm = PasswordForm(current: string, newPassword: string, confirm: string, loading: bool)

  /** The checks, in order: the confirmation must equal the new password, then
      the new password must have at least 6 characters. */
  function ValidatePassword(f: PasswordForm): (v: Verdict)
    ensures f.newPassword != f.confirm ==> v == Error("Passwords do not match")
    ensures f.newPassword == f.confirm && |f.newPassword| < 6 ==> v == Error("Password too short")
    ensures v == Ok <==> f.newPassword == f.confirm && |f.newPassword| >= 6
  {
    if f.newPassword != f.confirm then Error("Passwords do not match")
    else if |f.newPassword| < 6 then Error("Password too short")
    else Ok
  }

  /** The current password is never examined. */
  lemma CurrentPasswordIgnored(f: PasswordForm, other: string)
    ensures ValidatePassword(f.(current := other)) == ValidatePassword(f)
  {
  }

  /** "Update Password": a failed check shows its message, otherwise loading starts. */
  function PasswordClick(f: PasswordForm): (r: Step<PasswordForm, Write>)
    ensures r.call == None && r.nav == Stay
    ensures f.loading ==> r == Quiet(f)
    ensures !f.loading && ValidatePassword(f).Error? ==> r.state == f && r.toast == Some(ValidatePassword(f).message)
    ensures !f.loading && ValidatePassword(f) == Ok ==> r.state == f.(loading := true) && r.toast == None
  {
    if f.loading then Quiet(f)
    else match ValidatePassword(f)
      case Error(m) => Step(f, Some(m), None, Stay)
      case Ok => Step(f.(loading := true), None, None, Stay)
  }

  /** After the simulated delay the screen reports success and returns to the
      overview; no password is sent anywhere. */
  function PasswordEffect(f: PasswordForm): (r: Step<PasswordForm, Write>)
    requires f.loading
    ensures r.call == None
    ensures !r.state.loading
    ensures r.toast == Some("Password updated successfully!") && r.nav == Start(ProfileHome, false)
  {
    Step(f.(loading := false), Some("Password updated successfully!"), None, Start(ProfileHome, false))
  }

  // ---------------------------------------------------------------------
  // Tea preferences

  /** The six options, each an emoji, a space and the tea's name. */
  function TeaOptions(): seq<string> {
    [ "\U{1F33C} Chamomile", "\U{1F343} Peppermint", "\U{1FADA} Ginger",
      "\U{1F33F} Lemongrass", "\U{1F339} Hibiscus", "\U{1F36F} Honey Lavender" ]
  }

  /** `split(" ").drop(1).joinToString(" ")`. */
  function TeaName(option: string): string {
    var fields := Split(option, ' ');
    Join(fields[1..], ' ')
  }

  /** The extracted name is the text after the first space, unchanged; with
      no space it is empty. */
  lemma TeaNameIsTextAfterFirstSpace(option: string)
    ensures ' ' in option ==> TeaName(option) == option[IndexOf(option, ' ') + 1..]
    ensures ' ' !in option ==> TeaName(option) == ""
  {
    if ' ' in option {
      SplitTail(option, ' ');
      JoinSplit(option[IndexOf(option, ' ') + 1..], ' ');
    }
  }

  /** An emoji token without spaces is dropped and the rest kept. */
  lemma TeaNameDropsEmoji(emoji: string, name: string)
    requires ' ' !in emoji
    ensures TeaName(emoji + " " + name) == name
  {
    var s := emoji + " " + name;
    assert s[|emoji|] == ' ';
    TeaNameIsTextAfterFirstSpace(s);
    assert IndexOf(s, ' ') == |emoji| by {
      assert ' ' !in s[..|emoji|] by { assert s[..|emoji|] == emoji; }
    }
    assert s[|emoji| + 1..] == name;
  }

  /** The names the six options store. */
  function TeaNames(): seq<string> {
    ["Chamomile", "Peppermint", "Ginger", "Lemongrass", "Hibiscus", "Honey Lavender"]
  }

  /** Each option stores its name without the emoji. */
  lemma OptionStoresName(i: nat)
    requires i < |TeaOptions()|
    ensures TeaName(TeaOptions()[i]) == TeaNames()[i]
  {
    var emoji := ["\U{1F33C}", "\U{1F343}", "\U{1FADA}", "\U{1F33F}", "\U{1F339}", "\U{1F36F}"];
    assert TeaOptions()[i] == emoji[i] + " " + TeaNames()[i];
    TeaNameDropsEmoji(emoji[i], TeaNames()[i]);
  }

  /** The selection is an insertion-ordered set (Kotlin's `setOf` / `+` / `-`):
      a sequence without repetitions. */
  predicate NoDup(s: seq<string>) {
    forall i, j :: 0 <= i < j < |s| ==> s[i] != s[j]
  }

  /** `set - x`: every other element, in order. */
  function Without(s: seq<string>, x: string): (r: seq<string>)
    ensures x !in r
    ensures forall y :: y != x ==> (y in r <==> y in s)
    ensures x !in s ==> r == s
    ensures NoDup(s) ==> NoDup(r)
  {
    if |s| == 0 then []
    else if s[0] == x then Without(s[1..], x)
    else
      var rest := Without(s[1..], x);
      assert NoDup(s) ==> s[0] !in s[1..];
      assert x !in s ==> s == [s[0]] + s[1..];
      [s[0]] + rest
  }

  /** `set + x`: unchanged when present, appended otherwise. */
  function With(s: seq<string>, x: string): (r: seq<string>)
    ensures x in r
    ensures forall y :: y != x ==> (y in r <==> y in s)
    ensures NoDup(s) ==> NoDup(r)
  {
    if x in s then s else s + [x]
  }

  /** A click on a tea's row. */
  function ToggleRow(s: seq<string>, tea: string): (r: seq<string>) {
    if tea in s then Without(s, tea) else With(s, tea)
  }

  /** A change of a tea's checkbox to `checked`. */
  function SetChecked(s: seq<string>, tea: string, checked: bool): (r: seq<string>) {
    if checked then With(s, tea) else Without(s, tea)
  }

  /** A row click flips that tea's membership and no other's. */
  lemma ToggleRowFlips(s: seq<string>, tea: string)
    ensures tea in ToggleRow(s, tea) <==> tea !in s
    ensures forall y :: y != tea ==> (y in ToggleRow(s, tea) <==> y in s)
    ensures NoDup(s) ==> NoDup(ToggleRow(s, tea))
  {
  }

  /** Two clicks on a row restore the selected teas; from an unselected tea
      they restore the exact sequence. */
  lemma ToggleRowTwice(s: seq<string>, tea: string)
    ensures forall y :: y in ToggleRow(ToggleRow(s, tea), tea) <==> y in s
    ensures tea !in s ==> ToggleRow(ToggleRow(s, tea), tea) == s
  {
    if tea !in s {
      assert ToggleRow(s, tea) == s + [tea];
      WithoutAppended(s, tea);
    }
  }

  lemma {:induction false} WithoutAppended(s: seq<string>, x: string)
    requires x !in s
    ensures Without(s + [x], x) == s
  {
    if |s| > 0 {
      assert (s + [x])[1..] == s[1..] + [x];
      WithoutAppended(s[1..], x);
      assert s == [s[0]] + s[1..];
    } else {
      assert [x][1..] == [];
    }
  }

  /** A checkbox sets membership to exactly the checked value and is idempotent;
      a row click is the checkbox change to the opposite of the current state. */
  lemma SetCheckedExact(s: seq<string>, tea: string, checked: bool)
    ensures tea in SetChecked(s, tea, checked) <==> checked
    ensures forall y :: y != tea ==> (y in SetChecked(s, tea, checked) <==> y in s)
    ensures SetChecked(SetChecked(s, tea, checked), tea, checked) == SetChecked(s, tea, checked)
    ensures ToggleRow(s, tea) == SetChecked(s, tea, tea !in s)
  {
  }

  /** `list.toSet()`: the first occurrence of each element, in order. */
  function Dedup(l: seq<string>): (r: seq<string>)
    ensures NoDup(r)
    ensures forall y :: y in r <==> y in l
  {
    if |l| == 0 then []
    else
      var init := l[..|l| - 1];
      assert forall y :: y in l <==> y in init || y == l[|l| - 1] by {
        assert l == init + [l[|l| - 1]];
      }
      With(Dedup(init), l[|l| - 1])
  }

  /** The position of the first occurrence of `x` in `l`. */
  function FirstIndex(l: seq<string>, x: string): (k: nat)
    requires x in l
    ensures k < |l| && l[k] == x && x !in l[..k]
    decreases |l|
  {
    if l[0] == x then 0
    else
      var k := 1 + FirstIndex(l[1..], x);
      assert l[..k] == [l[0]] + l[1..][..k - 1];
      k
  }

  /** Only the first occurrence has no earlier copy. */
  lemma FirstIndexUnique(l: seq<string>, x: string, k: nat)
    requires k < |l| && l[k] == x && x !in l[..k]
    ensures FirstIndex(l, x) == k
  {
  }

  /** `toSet` keeps the elements in the order of their first occurrences in
      the list (a LinkedHashSet). */
  lemma {:induction false} DedupKeepsFirstOccurrenceOrder(l: seq<string>)
    ensures forall i, j :: 0 <= i < j < |Dedup(l)| ==> FirstIndex(l, Dedup(l)[i]) < FirstIndex(l, Dedup(l)[j])
  {
    if |l| > 0 {
      var init := l[..|l| - 1];
      var z := l[|l| - 1];
      var d := Dedup(init);
      DedupKeepsFirstOccurrenceOrder(init);
      assert l == init + [z];
      assert l[..|init|] == init;
      forall y | y in init
        ensures FirstIndex(l, y) == FirstIndex(init, y)
      {
        var k := FirstIndex(init, y);
        assert l[..k] == init[..k];
        FirstIndexUnique(l, y, k);
      }
      if z !in d {
        assert z !in init;
        FirstIndexUnique(l, z, |init|);
        assert Dedup(l) == d + [z];
        forall i, j | 0 <= i < j < |Dedup(l)|
          ensures FirstIndex(l, Dedup(l)[i]) < FirstIndex(l, Dedup(l)[j])
        {
          if j < |d| {
            assert Dedup(l)[i] == d[i] && Dedup(l)[j] == d[j];
          } else {
            assert Dedup(l)[i] == d[i] && d[i] in init;
          }
        }
      } else {
        assert Dedup(l) == d;
      }
    }
  }

  /** A list without repetitions is its own set. */
  lemma {:induction false} DedupNoDup(l: seq<string>)
    requires NoDup(l)
    ensures Dedup(l) == l
  {
    if |l| > 0 {
      var init := l[..|l| - 1];
      assert NoDup(init);
      DedupNoDup(init);
      assert l[|l| - 1] !in init;
      assert l == init + [l[|l| - 1]];
    }
  }

  datatype PrefsForm = PrefsForm(selected: seq<string>, loading: bool)

  function InitialPrefsForm(): PrefsForm {
    PrefsForm([], false)
  }

  /** The read of the preferences node: its value if it exists (None when it
      does not), or a failure, which the screen ignores. */
  datatype PrefsRead = PrefsSnapshot(value: Option<Value>) | PrefsFailed

  /** The read of users/user_123/preferences. */
  function ReadPreferences(db: Db): PrefsRead {
    var rec := At(db, UserNode());
    PrefsSnapshot(if "preferences" in rec then Some(rec["preferences"]) else None)
  }

  /** The load of the saved selection: an existing list replaces the selection
      as a set; anything else leaves it alone, or empties it when the stored
      value is not a list. */
  function LoadPreferences(f: PrefsForm, o: PrefsRead): (r: PrefsForm)
    ensures r.loading == f.loading
    ensures NoDup(f.selected) ==> NoDup(r.selected)
    ensures o.PrefsSnapshot? && o.value.Some? && o.value.value.VList?
      ==> (forall y :: y in r.selected <==> y in o.value.value.items) && r.selected == Dedup(o.value.value.items)
    ensures o.PrefsSnapshot? && o.value.Some? && !o.value.value.VList? ==> r.selected == []
    ensures o.PrefsFailed? || (o.PrefsSnapshot? && o.value.None?) ==> r == f
  {
    match o
    case PrefsSnapshot(Some(v)) => f.(selected := Dedup(if v.VList? then v.items else []))
    case _ => f
  }

  /** "Save Preferences": an empty selection is refused, otherwise loading starts. */
  function PrefsSaveClick(f: PrefsForm): (r: Step<PrefsForm, Write>)
    ensures r.call == None && r.nav == Stay
    ensures f.loading ==> r == Quiet(f)
    ensures !f.loading && f.selected == [] ==> r.state == f && r.toast == Some("Please select at least one tea!")
    ensures !f.loading && f.selected != [] ==> r.state == f.(loading := true) && r.toast == None
  {
    if f.loading then Quiet(f)
    else if f.selected == [] then Step(f, Some("Please select at least one tea!"), None, Stay)
    else Step(f.(loading := true), None, None, Stay)
  }

  /** The save the loading state launches: the selection is written as a list,
      and the loading flag drops as soon as the write is issued. */
  function PrefsSaveEffect(f: PrefsForm, o: SaveOutcome): (r: Step<PrefsForm, Write>)
    requires f.loading
    ensures r.state == f.(loading := false)
    ensures !o.Threw? ==> r.call == Some(SetChild(UserNode(), "preferences", VList(f.selected)))
    ensures o.Threw? ==> r.call == None && r.toast == Some("Error: " + Shown(o.message))
    ensures o.Saved? ==> r.toast == Some("Tea preferences saved!") && r.nav == Start(ProfileHome, false)
    ensures o.SaveFailed? ==> r.toast == Some("Save failed: " + Shown(o.message))
    ensures !o.Saved? ==> r.nav == Stay
  {
    var done := f.(loading := false);
    var w := SetChild(UserNode(), "preferences", VList(f.selected));
    match o
    case Saved => Step(done, Some("Tea preferences saved!"), Some(w), Start(ProfileHome, false))
    case SaveFailed(m) => Step(done, Some("Save failed: " + Shown(m)), Some(w), Stay)
    case Threw(m) => Step(done, Some("Error: " + Shown(m)), None, Stay)
  }

  /** Saved preferences are loaded back unchanged by the preferences screen
      and appear in the overview's profile. */
  lemma PrefsSaveLoadRoundTrip(db: Db, f: PrefsForm, g: PrefsForm)
    requires f.loading && NoDup(f.selected)
    ensures var w := PrefsSaveEffect(f, Saved).call.value;
      LoadPreferences(g, ReadPreferences(Apply(db, w))).selected == f.selected
      && LoadProfile(ReadNode(Apply(db, w), UserNode())).user.preferences == f.selected
  {
    DedupNoDup(f.selected);
  }
}
