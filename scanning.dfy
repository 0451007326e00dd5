/** What the gate and food scanners do with a decoded QR text once the camera has stopped:
    parse it, check for a registration number, ask the server, and show the verdict. */
module Scanning {
  import opened Js
  import opened PassCodec
  import opened Transport
  import Text

  /** The two scanner screens: the gate checks entry, the food counter checks food. */
  datatype Screen = Gate | FoodCounter

  /** What the result element shows: plain text, or a green or red verdict. */
  datatype Display = Plain(text: string) | Green(text: string) | Red(text: string)

  const InvalidPassText := "Invalid pass format."
  const ServerErrorText := "Server error"

  /** The API action each screen requests. */
  function Action(screen: Screen): string {
    match screen
    case Gate => "verifyEntry"
    case FoodCounter => "verifyFood"
  }

  /** `!parsed || !parsed.REG`, negated: the decoded text carries a non-empty REG. */
  predicate HasReg(parsed: Fields) {
    "REG" in parsed && parsed["REG"] != ""
  }

  /** The request for a registration number. */
  function VerifyRequest(screen: Screen, regNo: string): Params {
    [("action", Some(Action(screen))), ("regNo", Some(regNo))]
  }

  /** The green text of an allowed pass. */
  function AllowedText(screen: Screen, d: Record): string {
    match screen
    case Gate => "Entry allowed: " + Field(d, "Name")
    case FoodCounter => "Food allowed: " + Field(d, "Name") + " - " + Field(d, "Food")
  }

  /** String concatenation of a missing message prints `undefined`. */
  function MessageText(message: Option<string>): string {
    match message
    case None => "undefined"
    case Some(m) => m
  }

  /** How the verdict handler renders apiGet's outcome. An ok reply without data throws when its
      Name is read, and that error lands in the same catch as a rejected request. */
  function Verdict(screen: Screen, result: Outcome<Reply>): (shown: Display)
    ensures shown.Green? <==> result.Returned? && result.value.status == Some("ok") && result.value.data.Some?
    ensures shown.Red? <==> result.Returned? && result.value.status != Some("ok")
    ensures shown.Plain? ==> shown.text == ServerErrorText
    ensures shown.Green? ==> shown.text == AllowedText(screen, result.value.data.value)
    ensures shown.Red? ==> shown.text == MessageText(result.value.message)
  {
    match result
    case Thrown(_) => Plain(ServerErrorText)
    case Returned(res) =>
      if res.status == Some("ok") then
        match res.data
        case None => Plain(ServerErrorText)
        case Some(d) => Green(AllowedText(screen, d))
      else Red(MessageText(res.message))
  }

  /** One scan's effects: the texts shown in order, and the apiGet calls made. */
  datatype ScanOutcome = ScanOutcome(shown: seq<Display>, calls: seq<Params>)

  /** The body of the `stop().then` callback for `decodedText`. */
  function AfterStop(screen: Screen, decodedText: string, net: Network, next: nat): (o: ScanOutcome)
    ensures o.shown != [] && o.shown[0] == Plain("Scanned: " + decodedText) && |o.shown| == 2
    ensures !HasReg(Decode(decodedText)) <==> o.calls == []
    ensures !HasReg(Decode(decodedText)) ==> o.shown[1] == Plain(InvalidPassText)
    ensures HasReg(Decode(decodedText)) ==>
      var request := VerifyRequest(screen, Decode(decodedText)["REG"]);
      o.calls == [request] && o.shown[1] == Verdict(screen, Get(request, net, next).result)
  {
    var scanned := Plain("Scanned: " + decodedText);
    var parsed := Decode(decodedText);
    if !HasReg(parsed) then ScanOutcome([scanned, Plain(InvalidPassText)], [])
    else
      var request := VerifyRequest(screen, parsed["REG"]);
      ScanOutcome([scanned, Verdict(screen, Get(request, net, next).result)], [request])
  }

  /** A pass issued for a codec-safe record is accepted by the guard, and the request carries its
      registration number unchanged. */
  lemma IssuedPassRequestsItsRegNo(screen: Screen, d: Record, net: Network, next: nat)
    requires SafePass(d)
    ensures AfterStop(screen, QrText(d), net, next).calls == [VerifyRequest(screen, d["RegNo"])]
  {
    RoundTrip(d);
  }

  /** A pass printed without a registration number is rejected without a request. */
  lemma PassWithoutRegNoRejected(screen: Screen, d: Record, net: Network, next: nat)
    requires PipeFree(d) && Field(d, "RegNo") == ""
    ensures AfterStop(screen, QrText(d), net, next) ==
      ScanOutcome([Plain("Scanned: " + QrText(d)), Plain(InvalidPassText)], [])
  {
    MissingRegNoDropsReg(d);
  }

  /** A `REG` whose value is only whitespace decodes to "" and is rejected like a missing one. */
  lemma BlankRegRejected(screen: Screen, value: string, net: Network, next: nat)
    requires value != "" && (forall i :: 0 <= i < |value| ==> Text.IsWhitespace(value[i]))
    ensures AfterStop(screen, "REG:" + value, net, next).calls == []
  {
    BlankRegDecodes(value);
  }

  /** The food counter asks `verifyFood` about the decoded REG and, for an ok reply with data,
      shows the Name and the Food in green. */
  lemma FoodCounterScan(decodedText: string, net: Network, next: nat)
    requires HasReg(Decode(decodedText))
    ensures var regNo := Decode(decodedText)["REG"];
      var o := AfterStop(FoodCounter, decodedText, net, next);
      var r := Get(VerifyRequest(FoodCounter, regNo), net, next).result;
      && o.calls == [[("action", Some("verifyFood")), ("regNo", Some(regNo))]]
      && (r.Returned? && r.value.status == Some("ok") && r.value.data.Some? ==>
            o.shown[1] == Green("Food allowed: " + Field(r.value.data.value, "Name") + " - "
                                + Field(r.value.data.value, "Food")))
  {
  }

  /** The server's refusal message is shown verbatim, in red. */
  lemma RefusalShownVerbatim(screen: Screen, reply: Reply)
    requires reply.status != Some("ok") && reply.message.Some?
    ensures Verdict(screen, Returned(reply)) == Red(reply.message.value)
  {
  }
}
