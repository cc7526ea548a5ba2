/** The Housecall Pro integration settings screen: checking whether the company is
    connected, connecting with an API key (save it, test it, roll it back when the test
    fails) and disconnecting after a confirmation. The company's stored key is a field;
    the backend's answers are parameters. */
module IntegrationsScreen {
  import opened Wrappers
  import opened Text
  import opened HousecallProService

  const ENTER_KEY: string := "Please enter your API key"
  const UNABLE_TO_CONNECT: string := "Unable to connect to Housecall Pro"
  const CONNECTED: string := "Connected to Housecall Pro! All team members can now sync jobs."
  const DISCONNECT_QUESTION: string :=
    "Are you sure you want to disconnect from Housecall Pro? This will affect all team members."

  // ---------------------------------------------------------------- what the screen shows

  /** The screen's alert titles. */
  datatype Title = ErrorTitle | ConnectionFailed | Success

  function TitleText(t: Title): string
  {
    match t
    case ErrorTitle => "Error"
    case ConnectionFailed => "Connection Failed"
    case Success => "Success"
  }

  /** The screen's alert messages: its own three texts, or an error passed on. */
  datatype Message = EnterKey | UnableToConnect | Connected | ErrorText(text: string)

  function MessageText(m: Message): string
  {
    match m
    case EnterKey => ENTER_KEY
    case UnableToConnect => UNABLE_TO_CONNECT
    case Connected => CONNECTED
    case ErrorText(text) => text
  }

  /** A `showAlert(title, message)` call. */
  datatype Notice = Notice(title: Title, message: Message)

  /** What the user sees of an alert: on web one `alert` text, on native a titled alert. */
  datatype Shown = WebAlert(text: string) | NativeAlert(title: string, message: string)

  /** `showAlert`: on web the text `title: message`. */
  function ShowAlert(platform: Platform, title: string, message: string): Shown
  {
    if platform == Web then WebAlert(title + ": " + message) else NativeAlert(title, message)
  }

  /** Either way the title and the message can be read back: on web the text is the
      title, a colon and a space, then the message. */
  lemma ShowAlertCarries(platform: Platform, title: string, message: string)
    ensures platform == Web <==> ShowAlert(platform, title, message).WebAlert?
    ensures var n := ShowAlert(platform, title, message);
      n.WebAlert? ==> |n.text| == |title| + 2 + |message| && n.text[..|title|] == title &&
                      n.text[|title|..|title| + 2] == ": " && n.text[|title| + 2..] == message
    ensures var n := ShowAlert(platform, title, message);
      n.NativeAlert? ==> n.title == title && n.message == message
  {
    if platform == Web {
      var t := title + ": " + message;
      assert t[..|title|] == title;
      assert t[|title|..|title| + 2] == ": ";
      assert t[|title| + 2..] == message;
    }
  }

  /** The disconnect question: `confirm` on web, a Cancel / Disconnect alert on native. */
  datatype Prompt = WebConfirm(question: string) | NativeChoice(title: string, question: string, cancel: string, destructive: string)

  function DisconnectPrompt(platform: Platform): Prompt
  {
    if platform == Web then WebConfirm(DISCONNECT_QUESTION)
    else NativeChoice("Disconnect", DISCONNECT_QUESTION, "Cancel", "Disconnect")
  }

  /** A call into the integration service or something put on screen, in order. */
  datatype Effect =
    | SaveKey(companyId: string, apiKey: string, userId: string)
    | TestConnection(companyId: string)
    | RemoveKey(companyId: string)
    | Show(notice: Notice)
    | AskToDisconnect

  // ---------------------------------------------------------------- connecting

  /** `!(error || !data)`: the test passed. */
  predicate Accepted(test: ApiResponse<bool>)
  {
    !Truthy(test.error) && test.data == Some(true)
  }

  /** `error || 'Unable to connect to Housecall Pro'`. */
  function FailureMessage(test: ApiResponse<bool>): Message
  {
    if Truthy(test.error) then ErrorText(test.error.value) else UnableToConnect
  }

  /** The failure alert shows the test's error when there is one and the default text
      otherwise, and never an empty text. */
  lemma FailureMessageText(test: ApiResponse<bool>)
    ensures MessageText(FailureMessage(test)) == OrElse(test.error, UNABLE_TO_CONNECT)
    ensures MessageText(FailureMessage(test)) != ""
  {
    assert |UNABLE_TO_CONNECT| == 34;
  }

  /** The effects of `handleConnect` for the trimmed key `key` once a company and a user
      are known. */
  function ConnectEffectsOfKey(companyId: string, userId: string, key: string, test: ApiResponse<bool>): seq<Effect>
  {
    if key == "" then [Show(Notice(ErrorTitle, EnterKey))]
    else
      [SaveKey(companyId, key, userId), TestConnection(companyId)] +
      (if Accepted(test) then [Show(Notice(Success, Connected))]
       else [RemoveKey(companyId), Show(Notice(ConnectionFailed, FailureMessage(test)))])
  }

  /** The effects of `handleConnect` for the typed key `apiKey` and the connection test's
      answer `test`. */
  function ConnectEffects(companyId: Option<string>, userId: Option<string>, apiKey: string,
                          test: ApiResponse<bool>): seq<Effect>
  {
    if companyId.None? || userId.None? then []
    else ConnectEffectsOfKey(companyId.value, userId.value, Trim(apiKey), test)
  }

  /** Without a company or a user nothing happens. A blank key is never saved: it only
      brings up the error. Otherwise the trimmed key, which is non-empty and has no
      whitespace at either end, is saved and then checked by the connection test; a failed test removes the key
      again and shows the failure, a passed one removes nothing and shows the success. */
  lemma ConnectEffectsMeaning(companyId: Option<string>, userId: Option<string>, apiKey: string,
                              test: ApiResponse<bool>)
    ensures companyId.None? || userId.None? ==> ConnectEffects(companyId, userId, apiKey, test) == []
    ensures IsBlank(apiKey) ==> forall e :: e in ConnectEffects(companyId, userId, apiKey, test) ==> !e.SaveKey?
    ensures companyId.Some? && userId.Some? && IsBlank(apiKey) ==>
      ConnectEffects(companyId, userId, apiKey, test) == [Show(Notice(ErrorTitle, EnterKey))]
    ensures companyId.Some? && userId.Some? && !IsBlank(apiKey) ==>
      var effects := ConnectEffects(companyId, userId, apiKey, test);
      |effects| >= 3 &&
      effects[0] == SaveKey(companyId.value, Trim(apiKey), userId.value) &&
      effects[0].apiKey != "" && Trim(effects[0].apiKey) == effects[0].apiKey &&
      effects[1] == TestConnection(companyId.value) &&
      (RemoveKey(companyId.value) in effects <==> !Accepted(test)) &&
      effects[|effects| - 1] ==
        Show(if Accepted(test) then Notice(Success, Connected) else Notice(ConnectionFailed, FailureMessage(test)))
  {
    if IsBlank(apiKey) {
      BlankTrimsToEmpty(apiKey);
    } else {
      TrimmedKeyIsClean(apiKey);
      if companyId.Some? && userId.Some? {
        SavedBeforeConnectionTest(companyId.value, userId.value, Trim(apiKey), test);
      }
    }
  }

  lemma BlankTrimsToEmpty(s: string)
    requires IsBlank(s)
    ensures Trim(s) == ""
  {
    TrimEmptyIffBlank(s);
  }

  /** A key that is not blank trims to a non-empty text that trimming leaves as it is. */
  lemma TrimmedKeyIsClean(s: string)
    requires !IsBlank(s)
    ensures Trim(s) != "" && Trim(Trim(s)) == Trim(s)
  {
    TrimEmptyIffBlank(s);
    TrimIdempotent(s);
  }

  lemma SavedBeforeConnectionTest(companyId: string, userId: string, key: string, test: ApiResponse<bool>)
    requires key != ""
    ensures var effects := ConnectEffectsOfKey(companyId, userId, key, test);
      |effects| >= 3 &&
      effects[0] == SaveKey(companyId, key, userId) &&
      effects[1] == TestConnection(companyId) &&
      (RemoveKey(companyId) in effects <==> !Accepted(test)) &&
      effects[|effects| - 1] ==
        Show(if Accepted(test) then Notice(Success, Connected) else Notice(ConnectionFailed, FailureMessage(test)))
  {
    var effects := ConnectEffectsOfKey(companyId, userId, key, test);
    if Accepted(test) {
      assert effects == [SaveKey(companyId, key, userId), TestConnection(companyId), Show(Notice(Success, Connected))];
    } else {
      assert effects[2] == RemoveKey(companyId);
    }
  }

  // ---------------------------------------------------------------- the stored key

  /** `saveApiKey` upserts the company's row; a failed save leaves it as it was. */
  function AfterSave(stored: Option<string>, key: string, saveFailed: bool): Option<string>
  {
    if saveFailed then stored else Some(key)
  }

  /** `removeApiKey` deletes the company's row; a failed delete leaves it as it was. */
  function AfterRemove(stored: Option<string>, removeFailed: bool): Option<string>
  {
    if removeFailed then stored else None
  }

  /** The company's stored key once `handleConnect` is done with the trimmed key `key`. */
  function StoredAfterKey(stored: Option<string>, key: string, test: ApiResponse<bool>,
                          saveFailed: bool, removeFailed: bool): Option<string>
  {
    if key == "" then stored
    else if Accepted(test) then AfterSave(stored, key, saveFailed)
    else AfterRemove(AfterSave(stored, key, saveFailed), removeFailed)
  }

  function StoredAfterConnect(stored: Option<string>, companyId: Option<string>, userId: Option<string>,
                              apiKey: string, test: ApiResponse<bool>, saveFailed: bool, removeFailed: bool): Option<string>
  {
    if companyId.None? || userId.None? then stored
    else StoredAfterKey(stored, Trim(apiKey), test, saveFailed, removeFailed)
  }

  /** A blank key leaves the stored key as it was. When the backend calls succeed, a
      passed test leaves the trimmed key stored and a failed one leaves no key at all:
      after a connect the store holds a new key only if it passed its test. */
  lemma StoredAfterConnectMeaning(stored: Option<string>, companyId: Option<string>, userId: Option<string>,
                                  apiKey: string, test: ApiResponse<bool>, saveFailed: bool, removeFailed: bool)
    ensures IsBlank(apiKey) ==> StoredAfterConnect(stored, companyId, userId, apiKey, test, saveFailed, removeFailed) == stored
    ensures companyId.Some? && userId.Some? && !IsBlank(apiKey) && Accepted(test) && !saveFailed ==>
      StoredAfterConnect(stored, companyId, userId, apiKey, test, saveFailed, removeFailed) == Some(Trim(apiKey)) &&
      Trim(apiKey) != ""
    ensures companyId.Some? && userId.Some? && !IsBlank(apiKey) && !Accepted(test) && !removeFailed ==>
      StoredAfterConnect(stored, companyId, userId, apiKey, test, saveFailed, removeFailed).None?
  {
    TrimEmptyIffBlank(apiKey);
  }

  class IntegrationsScreenState {
    var isConnected: bool
    var isCheckingConnection: bool
    var apiKey: string
    var isConnecting: bool
    var showApiKeyInput: bool
    /** The key in the company's `housecall_pro` integration row, which every member of the
        company shares. */
    var storedKey: Option<string>

    constructor (stored: Option<string>)
      ensures !isConnected && isCheckingConnection && apiKey == "" && !isConnecting && !showApiKeyInput
      ensures storedKey == stored
    {
      isConnected := false;
      isCheckingConnection := true;
      apiKey := "";
      isConnecting := false;
      showApiKeyInput := false;
      storedKey := stored;
    }

    /** `checkConnection`: with a company, connected exactly when its key lookup gives a
        non-empty key; the loading flag is cleared. */
    method CheckConnection(hasCompany: bool, lookup: DbResponse<IntegrationRow>)
      modifies this
      ensures !hasCompany ==> unchanged(this)
      ensures hasCompany ==>
        (isConnected <==> lookup.error.None? && lookup.data.Some? && lookup.data.value.apiKey.Some? &&
                          lookup.data.value.apiKey.value != "") &&
        !isCheckingConnection
      ensures apiKey == old(apiKey) && isConnecting == old(isConnecting) &&
              showApiKeyInput == old(showApiKeyInput) && storedKey == old(storedKey)
    {
      if !hasCompany {
        return;
      }
      isCheckingConnection := true;
      IsConnectedExactly(lookup);
      isConnected := IsConnected(lookup);
      isCheckingConnection := false;
    }

    /** `handleConnect`: save the trimmed key, test it, and either roll it back and report
        the failure or mark the company connected, hide the form and clear the input. */
    method HandleConnect(companyId: Option<string>, userId: Option<string>,
                         test: ApiResponse<bool>, saveFailed: bool, removeFailed: bool)
      returns (effects: seq<Effect>)
      modifies this
      ensures effects == ConnectEffects(companyId, userId, old(apiKey), test)
      ensures storedKey == StoredAfterConnect(old(storedKey), companyId, userId, old(apiKey), test, saveFailed, removeFailed)
      ensures companyId.None? || userId.None? || Trim(old(apiKey)) == "" ==>
        isConnected == old(isConnected) && apiKey == old(apiKey) && isConnecting == old(isConnecting) &&
        showApiKeyInput == old(showApiKeyInput)
      ensures companyId.Some? && userId.Some? && Trim(old(apiKey)) != "" && !Accepted(test) ==>
        isConnected == old(isConnected) && apiKey == old(apiKey) && !isConnecting &&
        showApiKeyInput == old(showApiKeyInput)
      ensures companyId.Some? && userId.Some? && Trim(old(apiKey)) != "" && Accepted(test) ==>
        isConnected && apiKey == "" && !isConnecting && !showApiKeyInput
      ensures isCheckingConnection == old(isCheckingConnection)
    {
      if companyId.None? || userId.None? {
        return [];
      }
      var key := Trim(apiKey);
      if key == "" {
        return [Show(Notice(ErrorTitle, EnterKey))];
      }
      var c := companyId.value;
      isConnecting := true;
      storedKey := AfterSave(storedKey, key, saveFailed);
      if Truthy(test.error) || test.data != Some(true) {
        storedKey := AfterRemove(storedKey, removeFailed);
        isConnecting := false;
        return [SaveKey(c, key, userId.value), TestConnection(c)] +
               [RemoveKey(c), Show(Notice(ConnectionFailed, FailureMessage(test)))];
      }
      isConnected := true;
      showApiKeyInput := false;
      apiKey := "";
      isConnecting := false;
      effects := [SaveKey(c, key, userId.value), TestConnection(c)] + [Show(Notice(Success, Connected))];
    }

    /** `handleDisconnect`: ask first; on a yes remove the key and mark the company
        disconnected. */
    method HandleDisconnect(companyId: Option<string>, confirmed: bool, removeFailed: bool)
      returns (effects: seq<Effect>)
      modifies this
      ensures companyId.None? ==> effects == [] && unchanged(this)
      ensures companyId.Some? ==>
        effects == [AskToDisconnect] + (if confirmed then [RemoveKey(companyId.value)] else []) &&
        isConnected == (!confirmed && old(isConnected)) &&
        storedKey == (if confirmed then AfterRemove(old(storedKey), removeFailed) else old(storedKey))
      ensures companyId.Some? && confirmed && !removeFailed ==> !isConnected && storedKey.None?
      ensures apiKey == old(apiKey) && isConnecting == old(isConnecting) &&
              showApiKeyInput == old(showApiKeyInput) && isCheckingConnection == old(isCheckingConnection)
    {
      if companyId.None? {
        return [];
      }
      effects := [AskToDisconnect];
      if confirmed {
        effects := effects + [RemoveKey(companyId.value)];
        storedKey := AfterRemove(storedKey, removeFailed);
        isConnected := false;
      }
    }
  }
}
