/** The static mock prototype's controller (`script.js`): the global `state`
    record and the decisions its event handlers make. The DOM, timers and the
    wall clock are not modelled; every handler takes the current time `now`
    (milliseconds since the epoch) as a parameter, and the chat messages that
    `appendMessage` writes into the page are kept as the sequence `messages`. */
module Prototype {
  import JsText

  /** Milliseconds in an hour (`36e5`). */
  const HourMs: int := 3600000

  /** The cancellation window: 12 hours in milliseconds. */
  const TwelveHoursMs: int := 12 * HourMs

  /** `state.recording.maxMs`: the longest recording, 2 minutes. */
  const MaxRecordingMs: int := 120000

  /** The cap `Math.min(..., 120)` puts on a reported recording length. */
  const MaxRecordingSeconds: int := 120

  /** The demo account's e-mail address, `state.user.email`. */
  const DemoEmail: string := "lombook@gmail.com"

  /** The shortest password the login form accepts. */
  const MinPasswordLength: int := 4

  /** The message the recording timer posts when it stops a recording. */
  const AutoStopMessage: string := "[Audio 2:00 enviado]"

  /** The cancellation prompt when the full price will be charged. */
  const FullChargeText: string := "En este momento no es posible cancelar el servicio sin costo, ya que faltan menos de 12 horas. Si cancela ahora, se realizará el cobro total del servicio. ¿Desea continuar?"

  /** The cancellation prompt when cancelling is free. */
  const FreeCancellationText: string := "Se cancelará el servicio sin costo porque faltan más de 12 horas. ¿Desea continuar?"

  /** `state.auth.method`. */
  datatype AuthMethod = ByPassword | ByWallet | ByGoogle

  /** `state.payment.type`: "card" or "wallet". */
  datatype PaymentType = Card | Wallet

  // ---------------------------------------------------------------------------
  // Cancellation
  // ---------------------------------------------------------------------------

  /** `hoursToService`: the time left until the service starts, in (fractional)
      hours; negative once the service has started. */
  function HoursToService(start: int, now: int): (hours: real)
    ensures hours < 12.0 <==> start - now < TwelveHoursMs
    ensures hours < 0.0 <==> start < now
  {
    (start - now) as real / 3600000.0
  }

  /** The text of the cancellation dialog: the full-charge warning when fewer
      than 12 hours are left (a service that already started included), the
      free-cancellation prompt otherwise. */
  function CancellationText(start: int, now: int): (text: string)
    ensures text == FullChargeText || text == FreeCancellationText
    ensures text == FullChargeText <==> start - now < TwelveHoursMs
    ensures text == FreeCancellationText <==> start - now >= TwelveHoursMs
  {
    assert |FullChargeText| != |FreeCancellationText|;
    if HoursToService(start, now) < 12.0 then FullChargeText else FreeCancellationText
  }

  /** The service the prototype starts with begins 13 hours after the page
      loads, so for the first hour after loading cancelling is free. */
  lemma DemoServiceCancelsFree(loadedAt: int, now: int)
    requires loadedAt <= now <= loadedAt + HourMs
    ensures CancellationText(loadedAt + 13 * HourMs, now) == FreeCancellationText
  {
  }

  // ---------------------------------------------------------------------------
  // Recording
  // ---------------------------------------------------------------------------

  /** `Math.round`: the nearest integer, halves rounded up. */
  function JsRound(x: real): int
  {
    (x + 0.5).Floor
  }

  /** `Math.round(ms / 1000)`: a duration in milliseconds rounded to whole
      seconds, which is the integer quotient `(ms + 500) / 1000` rounded down. */
  function RoundedSeconds(ms: int): (sec: int)
    ensures sec == (ms + 500) / 1000
  {
    var q, r := (ms + 500) / 1000, (ms + 500) % 1000;
    assert (ms as real / 1000.0) + 0.5 == q as real + r as real / 1000.0;
    JsRound(ms as real / 1000.0)
  }

  /** The length a manually stopped recording reports:
      `Math.min(Math.round(ms / 1000), 120)`. */
  function ReportedSeconds(ms: int): (sec: int)
    ensures sec <= MaxRecordingSeconds
    ensures ms >= 0 ==> sec >= 0
    ensures sec == MaxRecordingSeconds <==> ms >= 119500
    ensures sec < MaxRecordingSeconds ==> sec == (ms + 500) / 1000
  {
    var rounded := RoundedSeconds(ms);
    if rounded < MaxRecordingSeconds then rounded else MaxRecordingSeconds
  }

  /** The `%` operator of JavaScript on integers: the remainder takes the sign
      of the dividend. */
  function TruncatedRemainder(a: int, b: int): int
    requires b > 0
  {
    if a >= 0 then a % b else -((-a) % b)
  }

  /** The chat message for a recording stopped after `sec` seconds,
      `[Audio M:SS enviado]`. */
  function StopLabel(sec: int): string
  {
    AudioMessage(
      JsText.PadStart(JsText.IntToString(sec / 60), 1, '0'),
      JsText.PadStart(JsText.IntToString(TruncatedRemainder(sec, 60)), 2, '0'))
  }

  /** The text `[Audio <minutes>:<seconds> enviado]`. */
  function AudioMessage(minutes: string, seconds: string): string
  {
    "[Audio " + minutes + ":" + seconds + " enviado]"
  }

  /** The layout of a message with a one-digit minute and a two-digit second
      field. */
  lemma AudioMessageLayout(m: char, s1: char, s2: char)
    ensures var l := AudioMessage([m], [s1, s2]);
      && |l| == 20 && l[..7] == "[Audio " && l[8] == ':' && l[11..] == " enviado]"
      && l[7] == m && l[9] == s1 && l[10] == s2
  {
  }

  /** The minute field of a label, for at most two minutes: one digit. */
  lemma MinuteField(m: int)
    requires 0 <= m <= 2
    ensures JsText.PadStart(JsText.IntToString(m), 1, '0') == [JsText.DigitChar(m)]
  {
  }

  /** The second field of a label: always two digits, zero-padded. */
  lemma SecondField(ss: int)
    requires 0 <= ss < 60
    ensures JsText.PadStart(JsText.IntToString(ss), 2, '0')
         == [JsText.DigitChar(ss / 10), JsText.DigitChar(ss % 10)]
  {
    if ss >= 10 {
      assert JsText.NatToString(ss) == JsText.NatToString(ss / 10) + [JsText.DigitChar(ss % 10)];
    }
  }

  /** For the lengths a recording can report, the label is 20 characters with
      a one-digit minute count of at most 2 and a two-digit second count below
      60, and reading the digits back gives the length in seconds. */
  lemma StopLabelReadsBack(sec: int)
    requires 0 <= sec <= MaxRecordingSeconds
    ensures var l := StopLabel(sec);
      && |l| == 20
      && l[..7] == "[Audio " && l[8] == ':' && l[11..] == " enviado]"
      && JsText.IsDigit(l[7]) && JsText.IsDigit(l[9]) && JsText.IsDigit(l[10])
      && JsText.DigitValue(l[7]) <= 2
      && JsText.DigitValue(l[9]) <= 5
      && 60 * JsText.DigitValue(l[7]) + 10 * JsText.DigitValue(l[9]) + JsText.DigitValue(l[10]) == sec
  {
    var m, ss := sec / 60, sec % 60;
    assert TruncatedRemainder(sec, 60) == ss;
    MinuteField(m);
    SecondField(ss);
    var d0, d1, d2 := JsText.DigitChar(m), JsText.DigitChar(ss / 10), JsText.DigitChar(ss % 10);
    assert StopLabel(sec) == AudioMessage([d0], [d1, d2]);
    AudioMessageLayout(d0, d1, d2);
    assert 60 * m + 10 * (ss / 10) + ss % 10 == sec;
  }

  /** The message a manual stop posts after `ms` milliseconds of recording. */
  function StopMessage(ms: int): string
  {
    StopLabel(ReportedSeconds(ms))
  }

  /** The automatic-stop message is the audio message for 2:00. */
  lemma AutoStopMessageShowsTwoMinutes()
    ensures AudioMessage("2", "00") == AutoStopMessage
  {
  }

  /** The label for a recording of 120 seconds shows minute 2, second 00. */
  lemma CapLabelFields()
    ensures StopLabel(MaxRecordingSeconds)
         == AudioMessage([JsText.DigitChar(2)], [JsText.DigitChar(0), JsText.DigitChar(0)])
  {
    assert TruncatedRemainder(MaxRecordingSeconds, 60) == 0;
    MinuteField(2);
    SecondField(0);
  }

  /** The label for a full two-minute recording is the automatic-stop
      message. */
  lemma CapLabelIsAutoStopMessage()
    ensures StopLabel(MaxRecordingSeconds) == AutoStopMessage
  {
    CapLabelFields();
    AutoStopMessageShowsTwoMinutes();
    assert [JsText.DigitChar(2)] == "2" && [JsText.DigitChar(0), JsText.DigitChar(0)] == "00";
  }

  /** A manual stop at or past the cap posts the same message as the
      automatic stop. */
  lemma ManualStopAtCapMatchesAutoStop(ms: int)
    requires ms >= 119500
    ensures StopMessage(ms) == AutoStopMessage
  {
    assert ReportedSeconds(ms) == MaxRecordingSeconds;
    CapLabelIsAutoStopMessage();
  }

  // ---------------------------------------------------------------------------
  // Login and payment
  // ---------------------------------------------------------------------------

  /** The wallet provider name the wallet login stores for a `data-wallet`
      value. */
  function ProviderName(val: string): (name: string)
    ensures val == "metamask" <==> name == "Metamask"
    ensures val == "bybit" <==> name == "BYBIT"
    ensures val == "binance" <==> name == "Binance"
    ensures name == "Bitcoin" <==> val !in {"metamask", "bybit", "binance"}
  {
    if val == "metamask" then "Metamask"
    else if val == "bybit" then "BYBIT"
    else if val == "binance" then "Binance"
    else "Bitcoin"
  }

  /** Whether the login form's submit handler lets a user in. */
  function PasswordAccepted(accountEmail: string, emailInput: string, password: string): bool
  {
    JsText.Trim(emailInput) == accountEmail && |password| >= MinPasswordLength
  }

  /** The demo account's address, typed with any whitespace around it, logs in
      with any password of 4 or more characters, and with no shorter one. */
  lemma PaddedDemoEmailLogsIn(p: string, q: string, password: string)
    requires JsText.AllWhitespace(p) && JsText.AllWhitespace(q)
    ensures PasswordAccepted(DemoEmail, p + DemoEmail + q, password) <==> |password| >= MinPasswordLength
  {
    JsText.TrimPadded(p, DemoEmail, q);
  }

  /** A typed address that is not the account's, once trimmed, never logs in. */
  lemma OtherEmailIsRejected(accountEmail: string, emailInput: string, password: string)
    requires JsText.Trim(emailInput) != accountEmail
    ensures !PasswordAccepted(accountEmail, emailInput, password)
  {
  }

  /** The other payment type: what the change-wallet button switches to. */
  function Toggled(p: PaymentType): (q: PaymentType)
    ensures q != p
  {
    if p == Card then Wallet else Card
  }

  /** Switching the payment type twice gives back the one started from. */
  lemma ToggledTwice(p: PaymentType)
    ensures Toggled(Toggled(p)) == p
  {
  }

  /** The global `state` record, restricted to the fields the handlers read
      and write. */
  class Prototype {
    /** `state.user.email`. */
    const userEmail: string
    /** `state.auth.logged`. */
    var logged: bool
    /** `state.auth.method`. */
    var authMethod: AuthMethod
    /** `state.payment.type`. */
    var paymentType: PaymentType
    /** `state.payment.wallet.provider`. */
    var walletProvider: string
    /** `state.service.start`, in milliseconds. */
    var serviceStart: int
    /** `state.recording.active`. */
    var recordingActive: bool
    /** `state.recording.started`, in milliseconds. */
    var recordingStarted: int
    /** The chat messages posted so far, oldest first. */
    var messages: seq<string>

    /** The state as the script loads at time `now`. */
    constructor (now: int)
      ensures userEmail == DemoEmail && !logged && authMethod == ByPassword
      ensures paymentType == Card && walletProvider == "Metamask"
      ensures serviceStart == now + 13 * HourMs
      ensures !recordingActive && recordingStarted == 0 && messages == []
    {
      userEmail := DemoEmail;
      logged := false;
      authMethod := ByPassword;
      paymentType := Card;
      walletProvider := "Metamask";
      serviceStart := now + 13 * HourMs;
      recordingActive := false;
      recordingStarted := 0;
      messages := [];
    }

    /** The click on a wallet in the wallet dialog: logs in by wallet, pays by
        wallet, and records the provider named by `val`. */
    method WalletLogin(val: string)
      modifies this`logged, this`authMethod, this`paymentType, this`walletProvider
      ensures logged && authMethod == ByWallet && paymentType == Wallet
      ensures walletProvider == ProviderName(val)
    {
      logged := true;
      authMethod := ByWallet;
      paymentType := Wallet;
      walletProvider := ProviderName(val);
    }

    /** The simulated Google login. */
    method GoogleLogin()
      modifies this`logged, this`authMethod
      ensures logged && authMethod == ByGoogle
    {
      logged := true;
      authMethod := ByGoogle;
    }

    /** The login form's submit handler. On success (`ok`) the user is logged
        in by password; otherwise the login state is left as it was. */
    method PasswordLogin(emailInput: string, password: string) returns (ok: bool)
      modifies this`logged, this`authMethod
      ensures ok == PasswordAccepted(userEmail, emailInput, password)
      ensures ok ==> logged && authMethod == ByPassword
      ensures !ok ==> logged == old(logged) && authMethod == old(authMethod)
    {
      if !PasswordAccepted(userEmail, emailInput, password) {
        return false;
      }
      logged := true;
      authMethod := ByPassword;
      ok := true;
    }

    /** The change-wallet button: switches between card and wallet payment. */
    method ChangeWallet()
      modifies this`paymentType
      ensures paymentType == Toggled(old(paymentType))
    {
      paymentType := Toggled(paymentType);
    }

    /** The cancel-service button: the text the dialog shows at time `now`. */
    method CancellationPrompt(now: int) returns (text: string)
      ensures text == CancellationText(serviceStart, now)
      ensures text == FullChargeText <==> serviceStart - now < TwelveHoursMs
      ensures text == FreeCancellationText <==> serviceStart - now >= TwelveHoursMs
    {
      text := CancellationText(serviceStart, now);
    }

    /** The send button of the chat: posts the trimmed text unless it is empty.
        (The simulated reply, posted by a timer, is not modelled.) */
    method SendChat(input: string)
      modifies this`messages
      ensures var t := JsText.Trim(input);
        messages == if t == "" then old(messages) else old(messages) + [t]
    {
      var val := JsText.Trim(input);
      if val == "" {
        return;
      }
      messages := messages + [val];
    }

    /** The record button at time `now`: starts a recording, or stops the
        running one and posts its length, capped at two minutes. */
    method ToggleRecording(now: int)
      modifies this`recordingActive, this`recordingStarted, this`messages
      ensures recordingActive == !old(recordingActive)
      ensures !old(recordingActive) ==> recordingStarted == now && messages == old(messages)
      ensures old(recordingActive) ==> recordingStarted == old(recordingStarted)
      ensures old(recordingActive) ==>
        messages == old(messages) + [StopMessage(now - old(recordingStarted))]
    {
      if !recordingActive {
        recordingActive := true;
        recordingStarted := now;
      } else {
        var text := StopMessage(now - recordingStarted);
        recordingActive, messages := false, messages + [text];
      }
    }

    /** One tick of the recording timer at time `now`: once the running
        recording has lasted two minutes it is stopped and the two-minute
        message is posted; otherwise nothing changes. */
    method Tick(now: int)
      modifies this`recordingActive, this`messages
      ensures var expired := old(recordingActive) && now - recordingStarted >= MaxRecordingMs;
        && recordingActive == (old(recordingActive) && !expired)
        && messages == if expired then old(messages) + [AutoStopMessage] else old(messages)
    {
      if !recordingActive {
        return;
      }
      if now - recordingStarted >= MaxRecordingMs {
        recordingActive := false;
        messages := messages + [AutoStopMessage];
      }
    }
  }
}
