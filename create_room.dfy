/**
 * The room-creation screen: the name field capped at 30 characters, the
 * language dropdown, the enable rule of the submit button, and the submit
 * handler with its label cycle `Create` -> `Creating...` -> `Create`.
 * The handler's request and its answer are two steps, because the label
 * stays `Creating...` (and the button disabled) while the request is out.
 */
module CreateRoom {
  import opened Wrappers
  import opened JsText
  import opened TokenService
  import FetchService

  const CREATE_LABEL: string := "Create"
  const CREATING_LABEL: string := "Creating..."
  const INITIAL_LANGUAGE: string := "Select"
  const MAX_NAME_LENGTH: nat := 30
  /** The dropdown's labels, as the screen passes them to `handleLanguageSelect`. */
  const LANGUAGE_LABELS: seq<string> := [" korean", " english"]
  const CLASSROOM_URL: string := "https://clang-a3xo.onrender.com/0.1.0/classroom/"
  const CLASSROOM_UID_KEY: string := "classroom_uid"
  /** The key this screen reads its Bearer token from. */
  const ACCESS_TOKEN_KEY: string := "access_token"

  const NAME_REQUIRED: string := "Classroom name is required."
  const CREATED_ALERT: string := "Classroom created successfully!"
  const CREATE_FAILED_ALERT: string := "Error creating classroom"

  /** The name input with `maxLength={30}`: what the field holds after the user types or pastes `typed`. */
  function CapName(typed: string): (r: string)
    ensures |r| == if |typed| <= MAX_NAME_LENGTH then |typed| else MAX_NAME_LENGTH
    ensures r == typed[..|r|]
  {
    if |typed| <= MAX_NAME_LENGTH then typed else typed[..MAX_NAME_LENGTH]
  }

  /** The body's `language`: `selectedLanguage.trim() || "Unknown"`. */
  function RequestLanguage(selected: string): (language: string)
    ensures language != "" && !IsTrimmable(language[0])
    ensures IsBlank(selected) ==> language == "Unknown"
    ensures !IsBlank(selected) ==> language == Trim(selected)
  {
    var t := Trim(selected);
    if t == "" then "Unknown" else t
  }

  /** `Bearer ${token}`: a missing token prints as `null`. */
  function BearerHeader(token: Option<string>): string {
    "Bearer " + (if token.Some? then token.value else "null")
  }

  /** The submit button's `disabled`: an empty name (by length, not trimmed) or a request in flight. */
  predicate SubmitDisabledFor(roomName: string, buttonLabel: string): (disabled: bool)
    ensures buttonLabel == CREATING_LABEL ==> disabled
    ensures !disabled <==> roomName != "" && buttonLabel != CREATING_LABEL
  {
    |roomName| == 0 || buttonLabel == CREATING_LABEL
  }

  /**
   * The enable rule counts characters, not trimmed ones: a name of spaces
   * enables the button although the handler refuses it; and the button is
   * disabled whenever a request is in flight, whatever the name.
   */
  lemma EnableRuleIgnoresTrim(name: string)
    requires name != [] && forall i :: 0 <= i < |name| ==> IsTrimmable(name[i])
    ensures !SubmitDisabledFor(name, CREATE_LABEL) && IsBlank(name)
    ensures SubmitDisabledFor(name, CREATING_LABEL) && SubmitDisabledFor("", CREATE_LABEL)
  {
    BlankIffAllTrimmable(name);
  }

  /**
   * `localStorage.getItem("access_token")`: the stored text, or `null` when
   * the key is absent. Only text entries are readable here; a token object
   * stored under this key reads as absent.
   */
  function AccessTokenItem(items: map<string, Entry>): (token: Option<string>)
    ensures token.Some? <==> ACCESS_TOKEN_KEY in items && items[ACCESS_TOKEN_KEY].OtherText?
    ensures token.Some? ==> items[ACCESS_TOKEN_KEY] == OtherText(token.value)
  {
    if ACCESS_TOKEN_KEY in items && items[ACCESS_TOKEN_KEY].OtherText? then Some(items[ACCESS_TOKEN_KEY].text) else None
  }

  /**
   * The credential store never writes the key this screen reads: saving or
   * removing tokens leaves `access_token` as it was, so with an empty storage
   * the screen's header stays `Bearer null` however often the user logs in.
   */
  lemma CredentialStoreNeverSetsAccessToken(items: map<string, Entry>, access: string, refresh: string)
    ensures AccessTokenItem(Saved(items, access, refresh)) == AccessTokenItem(items)
    ensures AccessTokenItem(Removed(items)) == AccessTokenItem(items)
    ensures AccessTokenItem(items) == None ==>
      BearerHeader(AccessTokenItem(Saved(items, access, refresh))) == "Bearer null"
  {
    assert ACCESS_TOKEN_KEY != AUTH_KEY;
  }

  datatype CreateRequest = CreateRequest(url: string, name: string, language: string, authorization: string)

  /** How the request settles: ok with the new room's `uid`, a non-ok status, or an exception. */
  datatype CreateReply = Created(uid: string) | NotOk | Threw

  class CreateRoomForm {
    var roomName: string
    var selectedLanguage: string
    var showLanguageOptions: bool
    var createRoomBtnName: string
    /** `localStorage.getItem("access_token")`, read when the screen renders. */
    const token: Option<string>

    ghost predicate Valid()
      reads this
    {
      |roomName| <= MAX_NAME_LENGTH && (createRoomBtnName == CREATE_LABEL || createRoomBtnName == CREATING_LABEL)
    }

    constructor (storage: LocalStorage)
      ensures Valid()
      ensures roomName == "" && selectedLanguage == INITIAL_LANGUAGE && !showLanguageOptions
      ensures createRoomBtnName == CREATE_LABEL && token == AccessTokenItem(storage.items)
    {
      roomName := "";
      selectedLanguage := INITIAL_LANGUAGE;
      showLanguageOptions := false;
      createRoomBtnName := CREATE_LABEL;
      token := AccessTokenItem(storage.items);
    }

    /** With the label at one of its two values, the button is enabled exactly for a non-empty name and an idle label. */
    predicate SubmitDisabled(): (disabled: bool)
      reads this
      ensures Valid() ==> (!disabled <==> roomName != "" && createRoomBtnName == CREATE_LABEL)
    {
      SubmitDisabledFor(roomName, createRoomBtnName)
    }

    method OnNameInput(typed: string)
      requires Valid()
      modifies this`roomName
      ensures Valid() && roomName == CapName(typed)
    {
      roomName := CapName(typed);
    }

    /** `toggleLanguageDropdown` */
    method ToggleLanguageDropdown()
      requires Valid()
      modifies this`showLanguageOptions
      ensures Valid() && showLanguageOptions == !old(showLanguageOptions)
    {
      showLanguageOptions := !showLanguageOptions;
    }

    /** `handleLanguageSelect`: record the label and close the dropdown. */
    method HandleLanguageSelect(language: string)
      requires Valid()
      modifies this`selectedLanguage, this`showLanguageOptions
      ensures Valid() && selectedLanguage == language && !showLanguageOptions
    {
      selectedLanguage := language;
      showLanguageOptions := false;
    }

    /**
     * `handleCreateRoom` up to its request, reachable only through the
     * enabled button. A blank name (which a name of spaces is, though it
     * enables the button) is refused with no request and the label back at
     * `Create`; otherwise the request goes out and the label reads
     * `Creating...`, which disables the button.
     */
    method HandleCreateRoom() returns (request: Option<CreateRequest>, alert: Option<string>)
      requires Valid() && !SubmitDisabled()
      modifies this`createRoomBtnName
      ensures Valid()
      ensures IsBlank(roomName) ==> request == None && alert == Some(NAME_REQUIRED) && createRoomBtnName == CREATE_LABEL
      ensures !IsBlank(roomName) ==>
        && request == Some(CreateRequest(CLASSROOM_URL, roomName, RequestLanguage(selectedLanguage), BearerHeader(token)))
        && alert == None && createRoomBtnName == CREATING_LABEL && SubmitDisabled()
    {
      createRoomBtnName := CREATING_LABEL;
      if IsBlank(roomName) {
        createRoomBtnName := CREATE_LABEL;
        return None, Some(NAME_REQUIRED);
      }
      request := Some(CreateRequest(CLASSROOM_URL, roomName, RequestLanguage(selectedLanguage), BearerHeader(token)));
      alert := None;
    }

    /**
     * The rest of `handleCreateRoom` once the request settles: on success the
     * room id is stored under `classroom_uid` and the screen navigates to the
     * room; every outcome ends with the label back at `Create`.
     */
    method FinishCreateRoom(storage: LocalStorage, reply: CreateReply) returns (navigateTo: Option<string>, alert: string)
      requires Valid() && createRoomBtnName == CREATING_LABEL
      modifies this`createRoomBtnName, storage
      ensures Valid() && createRoomBtnName == CREATE_LABEL
      ensures reply.Created? ==>
        && navigateTo == Some("/transcription/" + reply.uid) && alert == CREATED_ALERT
        && storage.items == old(storage.items)[CLASSROOM_UID_KEY := OtherText(reply.uid)]
      ensures !reply.Created? ==> navigateTo == None && alert == CREATE_FAILED_ALERT && storage.items == old(storage.items)
    {
      if reply.Created? {
        storage.items := storage.items[CLASSROOM_UID_KEY := OtherText(reply.uid)];
        navigateTo, alert := Some("/transcription/" + reply.uid), CREATED_ALERT;
      } else {
        navigateTo, alert := None, CREATE_FAILED_ALERT;
      }
      createRoomBtnName := CREATE_LABEL;
    }
  }

  /**
   * The language a request can carry: the initial `Select` and the two
   * offered labels are sent trimmed; `Unknown` is never sent for them.
   */
  lemma OfferedLanguages()
    ensures RequestLanguage(INITIAL_LANGUAGE) == "Select"
    ensures RequestLanguage(LANGUAGE_LABELS[0]) == "korean"
    ensures RequestLanguage(LANGUAGE_LABELS[1]) == "english"
  {
    InitialLanguage();
    assert LANGUAGE_LABELS[0] == " " + "korean";
    LeadingSpaceLabel("korean");
    assert LANGUAGE_LABELS[1] == " " + "english";
    LeadingSpaceLabel("english");
  }

  lemma InitialLanguage()
    ensures RequestLanguage(INITIAL_LANGUAGE) == INITIAL_LANGUAGE
  {
    TrimUntouched(INITIAL_LANGUAGE);
  }

  lemma LeadingSpaceLabel(word: string)
    requires word != [] && !IsTrimmable(word[0]) && !IsTrimmable(word[|word| - 1])
    ensures RequestLanguage(" " + word) == word
  {
    TrimUntouched(word);
    TrimLeadingSpace(word);
  }

  /**
   * The offered `english` label is lower-case, so the service's case-sensitive
   * `createClassroom` mapping would send it as `ko`.
   */
  lemma EnglishLabelMapsToKorean()
    ensures FetchService.ClassroomLanguage(LANGUAGE_LABELS[1]) == "ko"
  {
    FetchService.LowerEnglishIsKo();
  }
}
