/**
 * The profile screen's state (FitnessApp/Features/Profile/ProfileViewModel.swift):
 * a nickname kept in the user defaults under "userNickname", greetings built
 * from it, and a one-time save.
 */
module Profile {
  import opened Optional

  /** The user defaults, as the string values stored per key. */
  class UserDefaultsStore {
    var strings: map<string, string>

    constructor (initial: map<string, string>)
      ensures strings == initial
    {
      strings := initial;
    }

    /** `string(forKey:)`: nil when nothing is stored under the key. */
    function StringFor(key: string): Option<string>
      reads this
    {
      if key in strings then Some(strings[key]) else None
    }

    /** `set(_:forKey:)`. */
    method Set(value: string, key: string)
      modifies this
      ensures strings == old(strings)[key := value]
      ensures StringFor(key) == Some(value)
    {
      strings := strings[key := value];
    }
  }

  const NicknameKey := "userNickname"

  /** `greetingTitle`: "Hallo <nickname>!" once there is a nickname, else "Profile". */
  function GreetingTitle(nickname: string): (r: string)
    ensures r == "Profile" <==> nickname == ""
    ensures nickname != "" ==>
      |r| == |nickname| + 7 && r[..6] == "Hallo " && r[6..|r| - 1] == nickname && r[|r| - 1] == '!'
  {
    if nickname != "" then
      var r := "Hallo " + nickname + "!";
      assert r[..6] == "Hallo " && r[6..|r| - 1] == nickname;
      assert r[0] != "Profile"[0];
      r
    else "Profile"
  }

  /** `greetingMessage`: a welcome back naming the nickname, or nothing. */
  function GreetingMessage(nickname: string): (r: string)
    ensures r == "" <==> nickname == ""
    ensures nickname != "" ==>
      |r| == |nickname| + 20 && r[..19] == "Willkommen zurück, " && r[19..|r| - 1] == nickname && r[|r| - 1] == '!'
  {
    if nickname != "" then
      var r := "Willkommen zurück, " + nickname + "!";
      assert r[..19] == "Willkommen zurück, " && r[19..|r| - 1] == nickname;
      r
    else ""
  }

  /** Different nicknames are greeted differently. */
  lemma GreetingTitleInjective(a: string, b: string)
    requires GreetingTitle(a) == GreetingTitle(b)
    ensures a == b
  {
    if a != "" && b != "" {
      var t := GreetingTitle(a);
      assert a == t[6..|t| - 1] == b;
    }
  }

  /** What a press of Save comes to. */
  datatype SaveOutcome = AlreadySet | Rejected | Persisted

  /**
   * `saveNickname()` as written: it first refuses when the typed nickname is
   * not empty, then refuses (with the alert) when it is empty.
   */
  function SaveOutcomeAsWritten(nickname: string): SaveOutcome {
    if nickname != "" then AlreadySet
    else if nickname == "" then Rejected
    else Persisted
  }

  /** As written, no nickname is ever persisted: every press is refused one way or the other. */
  lemma SaveAsWrittenNeverPersists(nickname: string)
    ensures SaveOutcomeAsWritten(nickname) != Persisted
    ensures SaveOutcomeAsWritten(nickname) == AlreadySet <==> nickname != ""
    ensures SaveOutcomeAsWritten("Max") == AlreadySet
  {
  }

  /**
   * `saveNickname()` as evidently intended: refuse when a nickname is already
   * stored, raise the alert for an empty one, otherwise persist it.
   */
  function SaveOutcomeCorrected(stored: Option<string>, nickname: string): (r: SaveOutcome)
    ensures r == Persisted <==> stored.GetOr("") == "" && nickname != ""
    ensures r == AlreadySet <==> stored.GetOr("") != ""
    ensures r == Rejected <==> stored.GetOr("") == "" && nickname == ""
  {
    if stored.GetOr("") != "" then AlreadySet
    else if nickname == "" then Rejected
    else Persisted
  }

  class ProfileViewModel {
    var nickname: string
    var showAlert: bool
    const userDefaults: UserDefaultsStore

    /** `init()`: the stored nickname, or an empty one. */
    constructor (userDefaults: UserDefaultsStore)
      ensures this.userDefaults == userDefaults
      ensures nickname == userDefaults.StringFor(NicknameKey).GetOr("") && !showAlert
    {
      this.userDefaults := userDefaults;
      nickname := userDefaults.StringFor(NicknameKey).GetOr("");
      showAlert := false;
    }

    /** `isNicknameSet`: the typed nickname is not empty. */
    predicate IsNicknameSet()
      reads this
    {
      nickname != ""
    }

    /** Whether a non-empty nickname is stored: what the first guard of the save evidently means. */
    predicate IsNicknameSaved()
      reads this, userDefaults
    {
      userDefaults.StringFor(NicknameKey).GetOr("") != ""
    }

    /** The screen's title: the plain "Profile" exactly while no nickname is typed. */
    function Title(): (r: string)
      reads this
      ensures r == "Profile" <==> !IsNicknameSet()
    {
      GreetingTitle(nickname)
    }

    /** The welcome line: empty exactly while no nickname is typed. */
    function Message(): (r: string)
      reads this
      ensures r == "" <==> !IsNicknameSet()
    {
      GreetingMessage(nickname)
    }

    /**
     * The save button, corrected: stores a non-empty nickname once; an empty
     * one raises the alert; nothing is stored once a nickname is.
     */
    method SaveNickname() returns (saved: bool)
      modifies this, userDefaults
      ensures saved <==> SaveOutcomeCorrected(old(userDefaults.StringFor(NicknameKey)), nickname) == Persisted
      ensures saved ==> userDefaults.strings == old(userDefaults.strings)[NicknameKey := nickname] && IsNicknameSaved()
      ensures !saved ==> unchanged(userDefaults)
      ensures showAlert == (old(showAlert) || SaveOutcomeCorrected(old(userDefaults.StringFor(NicknameKey)), nickname) == Rejected)
      ensures nickname == old(nickname)
    {
      if IsNicknameSaved() {
        return false;
      }
      if nickname == "" {
        showAlert := true;
        return false;
      }
      userDefaults.Set(nickname, NicknameKey);
      return true;
    }
  }

  /** A first save stores the nickname; a second one is refused. */
  method SaveOnlyOnce() {
    var defaults := new UserDefaultsStore(map[]);
    var vm := new ProfileViewModel(defaults);
    assert vm.Title() == "Profile" && vm.Message() == "";
    vm.nickname := "Max";
    var first := vm.SaveNickname();
    assert first && defaults.StringFor(NicknameKey) == Some("Max");
    var second := vm.SaveNickname();
    assert !second;
  }
}
