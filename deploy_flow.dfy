/**
 * The four-step deploy wizard: channel, bot token, model, deploy. The token
 * check is the pattern `^\d+:[A-Za-z0-9_-]{35,}$` on the trimmed input; the
 * wizard itself is a small state machine driven by its event handlers.
 */
module DeployFlow {
  import opened Wrappers
  import opened Text

  const TokenRequired: string := "Bot token is required"
  const TokenFormat: string := "Invalid format. Should look like: 1234567890:ABCdefGHIjklMNOpqrsTUVwxyz"

  /** The least number of characters after the colon. */
  const MinSecretLength: nat := 35

  /** The characters of a bot token's secret part: ASCII letters, digits, underscore and hyphen. */
  predicate IsSecretChar(c: char) {
    ('A' <= c <= 'Z') || ('a' <= c <= 'z') || ('0' <= c <= '9') || c == '_' || c == '-'
  }

  /** The length of the run of ASCII digits at the front of `s`. */
  function DigitRun(s: string): (k: nat)
    ensures k <= |s|
    ensures forall i :: 0 <= i < k ==> IsDigit(s[i])
    ensures k < |s| ==> !IsDigit(s[k])
  {
    if s == [] || !IsDigit(s[0]) then 0 else 1 + DigitRun(s[1..])
  }

  /**
   * The pattern, read left to right: a digit run, which cannot swallow the
   * colon, then the colon, then at least 35 secret characters up to the end.
   */
  predicate MatchesToken(t: string) {
    var k := DigitRun(t);
    && 1 <= k < |t|
    && t[k] == ':'
    && |t| - (k + 1) >= MinSecretLength
    && forall i :: k + 1 <= i < |t| ==> IsSecretChar(t[i])
  }

  /** The pattern as a split point: digits before it, a colon at it, secret characters after it. */
  predicate SplitsAsToken(t: string, k: nat) {
    && 1 <= k < |t|
    && (forall i :: 0 <= i < k ==> IsDigit(t[i]))
    && t[k] == ':'
    && |t| - (k + 1) >= MinSecretLength
    && (forall i :: k + 1 <= i < |t| ==> IsSecretChar(t[i]))
  }

  /** The left-to-right reading accepts exactly the strings that split as the pattern says. */
  lemma MatchesTokenIff(t: string)
    ensures MatchesToken(t) <==> exists k: nat :: SplitsAsToken(t, k)
  {
    if MatchesToken(t) {
      assert SplitsAsToken(t, DigitRun(t));
    }
    if k: nat :| SplitsAsToken(t, k) {
      DigitRunStops(t, k);
    }
  }

  /** The digit run ends at the first character that is not a digit. */
  lemma {:induction false} DigitRunStops(s: string, k: nat)
    requires k < |s| && !IsDigit(s[k])
    requires forall i :: 0 <= i < k ==> IsDigit(s[i])
    ensures DigitRun(s) == k
  {
    if k > 0 {
      DigitRunStops(s[1..], k - 1);
    }
  }

  /** The number of colons in a string. */
  function Colons(s: string): nat {
    if s == [] then 0 else (if s[0] == ':' then 1 else 0) + Colons(s[1..])
  }

  lemma {:induction false} ColonsSplit(a: string, b: string)
    ensures Colons(a + b) == Colons(a) + Colons(b)
  {
    if a == [] {
      assert a + b == b;
    } else {
      ColonsSplit(a[1..], b);
      assert (a + b)[0] == a[0] && (a + b)[1..] == a[1..] + b;
      assert Colons(a) == (if a[0] == ':' then 1 else 0) + Colons(a[1..]);
    }
  }

  lemma {:induction false} NoColons(s: string)
    requires forall i :: 0 <= i < |s| ==> s[i] != ':'
    ensures Colons(s) == 0
  {
    if s != [] {
      NoColons(s[1..]);
    }
  }

  /**
   * An accepted token has a non-empty digit prefix, exactly one colon, and
   * at least 35 characters after it.
   */
  lemma AcceptedTokenShape(t: string)
    requires MatchesToken(t)
    ensures var k := DigitRun(t); k >= 1 && t[k] == ':' && |t[k + 1..]| >= 35 && Colons(t) == 1
  {
    var k := DigitRun(t);
    assert t == t[..k] + [':'] + t[k + 1..];
    ColonsSplit(t[..k] + [':'], t[k + 1..]);
    ColonsSplit(t[..k], [':']);
    NoColons(t[..k]);
    NoColons(t[k + 1..]);
    assert Colons([':']) == 1;
  }

  /**
   * `validateBotToken`: "required" when the trimmed input is empty, the
   * format message when it does not match, no error when it does.
   */
  function ValidateBotToken(token: string): (err: Option<string>)
    ensures Trim(token) == "" ==> err == Some(TokenRequired)
    ensures Trim(token) != "" && !MatchesToken(Trim(token)) ==> err == Some(TokenFormat)
    ensures err.None? <==> MatchesToken(Trim(token))
  {
    var t := Trim(token);
    if t == "" then Some(TokenRequired)
    else if !MatchesToken(t) then Some(TokenFormat)
    else None
  }

  /** Leading white space runs through a string made only of white space. */
  lemma {:induction false} AllSpaceLeading(s: string)
    requires forall i :: 0 <= i < |s| ==> IsJsSpace(s[i])
    ensures LeadingSpace(s) == |s|
  {
    if s != [] {
      AllSpaceLeading(s[1..]);
    }
  }

  /** Input made only of white space (the empty input too) is reported as missing. */
  lemma BlankIsRequired(token: string)
    requires forall i :: 0 <= i < |token| ==> IsJsSpace(token[i])
    ensures ValidateBotToken(token) == Some(TokenRequired)
  {
    AllSpaceLeading(token);
  }

  /** Non-blank input without a colon is reported as malformed. */
  lemma ColonlessIsMalformed(token: string)
    requires Trim(token) != ""
    requires forall i :: 0 <= i < |token| ==> token[i] != ':'
    ensures ValidateBotToken(token) == Some(TokenFormat)
  {
    var t := Trim(token);
    var k := DigitRun(t);
    if k < |t| {
      assert t[k] in token;
    }
  }

  datatype Channel = Telegram | WhatsApp {
    function Id(): string {
      match this
      case Telegram => "telegram"
      case WhatsApp => "whatsapp"
    }
  }

  /** Only Telegram is offered; WhatsApp is shown as unavailable. */
  predicate Available(ch: Channel) {
    ch == Telegram
  }

  datatype Model = Claude | Gpt | Gemini {
    function Id(): string {
      match this
      case Claude => "claude"
      case Gpt => "gpt"
      case Gemini => "gemini"
    }
  }

  /** The body of the deploy request. */
  datatype DeployRequest = DeployRequest(channel: string, model: string, botToken: string)

  /** The reply of the deploy route: its status and fields, or a rejected round trip. */
  datatype DeployReply =
    | DeployReply(ok: bool, error: Option<string>, deploymentId: string)
    | DeployRejected(message: string)

  /**
   * The error a deploy shows: the rejection's message, the route's error
   * (or "Deploy failed" when it gave none) on a failed reply, none on success.
   */
  function DeployError(reply: DeployReply): (e: Option<string>)
    ensures e.None? <==> reply.DeployReply? && reply.ok
    ensures reply.DeployRejected? ==> e == Some(reply.message)
    ensures reply.DeployReply? && !reply.ok && reply.error.Some? && reply.error.value != "" ==> e == reply.error
    ensures reply.DeployReply? && !reply.ok && (reply.error.None? || reply.error.value == "") ==>
      e == Some("Deploy failed")
  {
    match reply
    case DeployRejected(m) => Some(m)
    case DeployReply(ok, err, _) =>
      if ok then None else Some(if err.Some? && err.value != "" then err.value else "Deploy failed")
  }

  /** Where a deploy leads: the dashboard focused on the new deployment, only on success. */
  function Destination(reply: DeployReply): (d: Option<string>)
    ensures d.Some? <==> DeployError(reply).None?
    ensures d.Some? ==> d.value == "/dashboard?deployment=" + reply.deploymentId
  {
    if reply.DeployReply? && reply.ok then Some("/dashboard?deployment=" + reply.deploymentId) else None
  }

  class Wizard {
    var step: nat
    var channel: Option<Channel>
    var botToken: string
    var botTokenError: Option<string>
    var model: Model
    var loading: bool
    var error: Option<string>
    /** Where the router was sent, if anywhere. */
    var navigatedTo: Option<string>

    /**
     * The step is one of the four; only an available channel is ever held;
     * beyond step 1 a channel is chosen; beyond step 2 the token is valid.
     */
    predicate Valid()
      reads this
    {
      && 1 <= step <= 4
      && (channel.None? || channel == Some(Telegram))
      && (step >= 2 ==> channel.Some?)
      && (step >= 3 ==> ValidateBotToken(botToken).None?)
    }

    constructor ()
      ensures Valid()
      ensures step == 1 && channel == None && botToken == "" && botTokenError == None && model == Claude
      ensures !loading && error == None && navigatedTo == None
    {
      step := 1;
      channel := None;
      botToken := "";
      botTokenError := None;
      model := Claude;
      loading := false;
      error := None;
      navigatedTo := None;
    }

    /** A channel card on step 1: an unavailable channel does nothing. */
    method SelectChannel(ch: Channel)
      requires Valid()
      modifies this
      ensures Valid()
      ensures channel == (if step == 1 && Available(ch) then Some(ch) else old(channel))
      ensures step == old(step) && botToken == old(botToken) && botTokenError == old(botTokenError)
      ensures model == old(model) && loading == old(loading) && error == old(error)
      ensures navigatedTo == old(navigatedTo)
    {
      if step == 1 && Available(ch) {
        channel := Some(ch);
      }
    }

    /** "Next" on step 1, disabled without a channel. */
    method ChannelNext()
      requires Valid()
      modifies this
      ensures Valid()
      ensures step == (if old(step) == 1 && channel.Some? then 2 else old(step))
      ensures channel == old(channel) && botToken == old(botToken) && botTokenError == old(botTokenError)
      ensures model == old(model) && loading == old(loading) && error == old(error)
      ensures navigatedTo == old(navigatedTo)
    {
      if step == 1 && channel.Some? {
        step := 2;
      }
    }

    /** Typing in the token field on step 2 clears a shown error. */
    method EditToken(value: string)
      requires Valid()
      modifies this
      ensures Valid()
      ensures old(step) == 2 ==> botToken == value && botTokenError == None
      ensures old(step) != 2 ==> botToken == old(botToken) && botTokenError == old(botTokenError)
      ensures step == old(step) && channel == old(channel)
      ensures model == old(model) && loading == old(loading) && error == old(error)
      ensures navigatedTo == old(navigatedTo)
    {
      if step == 2 {
        botToken := value;
        if botTokenError.Some? {
          botTokenError := None;
        }
      }
    }

    /** `handleConnectNext`: on to step 3 only with a valid token, otherwise the error is shown. */
    method ConnectNext()
      requires Valid()
      modifies this
      ensures Valid()
      ensures old(step) == 2 && ValidateBotToken(botToken).None? ==> step == 3 && botTokenError == None
      ensures old(step) == 2 && ValidateBotToken(botToken).Some? ==>
        step == 2 && botTokenError == ValidateBotToken(botToken)
      ensures old(step) != 2 ==> step == old(step) && botTokenError == old(botTokenError)
      ensures botToken == old(botToken) && channel == old(channel)
      ensures model == old(model) && loading == old(loading) && error == old(error)
      ensures navigatedTo == old(navigatedTo)
    {
      if step != 2 { return; }
      var err := ValidateBotToken(botToken);
      if err.Some? {
        botTokenError := err;
        return;
      }
      botTokenError := None;
      step := 3;
    }

    /** A model card on step 3. */
    method SelectModel(m: Model)
      requires Valid()
      modifies this
      ensures Valid()
      ensures model == (if old(step) == 3 then m else old(model))
      ensures step == old(step) && channel == old(channel) && botToken == old(botToken)
      ensures botTokenError == old(botTokenError) && loading == old(loading) && error == old(error)
      ensures navigatedTo == old(navigatedTo)
    {
      if step == 3 {
        model := m;
      }
    }

    /** "Next" on step 3, always enabled. */
    method ModelNext()
      requires Valid()
      modifies this
      ensures Valid()
      ensures step == (if old(step) == 3 then 4 else old(step))
      ensures channel == old(channel) && botToken == old(botToken) && model == old(model)
      ensures botTokenError == old(botTokenError) && loading == old(loading) && error == old(error)
      ensures navigatedTo == old(navigatedTo)
    {
      if step == 3 {
        step := 4;
      }
    }

    /** "Back" on steps 2, 3 and 4: one step back. */
    method Back()
      requires Valid()
      modifies this
      ensures Valid()
      ensures step == (if old(step) >= 2 then old(step) - 1 else old(step))
      ensures channel == old(channel) && botToken == old(botToken) && model == old(model)
      ensures botTokenError == old(botTokenError) && loading == old(loading) && error == old(error)
      ensures navigatedTo == old(navigatedTo)
    {
      if step >= 2 {
        step := step - 1;
      }
    }

    /**
     * `handleDeploy`, on step 4 where its button is: without a user nothing
     * is sent (the sign-in redirect is not modelled); without a channel
     * nothing happens; otherwise the channel, the model and the trimmed
     * token, which has passed validation, are sent, and then the dashboard
     * is opened or the error shown. Loading is off afterwards.
     */
    method HandleDeploy(user: Option<string>, server: DeployRequest -> DeployReply)
      returns (sent: Option<DeployRequest>)
      requires Valid()
      modifies this
      ensures Valid()
      ensures sent.Some? <==> step == 4 && user.Some? && channel.Some?
      ensures sent.Some? ==>
        sent.value == DeployRequest(channel.value.Id(), model.Id(), Trim(botToken)) &&
        MatchesToken(sent.value.botToken) &&
        !loading &&
        error == DeployError(server(sent.value)) &&
        navigatedTo == (if Destination(server(sent.value)).Some? then Destination(server(sent.value))
                        else old(navigatedTo))
      ensures sent.None? ==> error == old(error) && loading == old(loading) && navigatedTo == old(navigatedTo)
      ensures step == old(step) && channel == old(channel) && botToken == old(botToken) && model == old(model)
      ensures botTokenError == old(botTokenError)
    {
      if step != 4 { return None; }
      if user.None? { return None; }
      if channel.None? { return None; }
      var token := Trim(botToken);
      assert MatchesToken(token) by { assert ValidateBotToken(botToken).None?; }
      var request := DeployRequest(channel.value.Id(), model.Id(), token);
      Submit(request, server);
      sent := Some(request);
    }

    /** Sends a request with loading on, then shows the error or opens the dashboard; loading is off afterwards. */
    method Submit(request: DeployRequest, server: DeployRequest -> DeployReply)
      requires Valid()
      modifies this
      ensures Valid()
      ensures !loading && error == DeployError(server(request))
      ensures navigatedTo == (if Destination(server(request)).Some? then Destination(server(request))
                              else old(navigatedTo))
      ensures step == old(step) && channel == old(channel) && botToken == old(botToken) && model == old(model)
      ensures botTokenError == old(botTokenError)
    {
      loading := true;
      error := None;
      var reply := server(request);
      error := DeployError(reply);
      var destination := Destination(reply);
      if destination.Some? {
        navigatedTo := destination;
      }
      loading := false;
    }
  }
}
