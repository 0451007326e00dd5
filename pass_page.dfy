/** The pass page: it reads `regNo` from the address, fetches the pass and fills the ticket. */
module PassPage {
  import opened Js
  import opened Text
  import opened PassCodec
  import opened Transport

  const VegIcon := "assets/veg.png"
  const NonVegIcon := "assets/nonveg.png"

  /** What the page ends up showing: 'Missing regNo' or 'Pass not found' in the name element,
      the notice 'Failed to fetch pass. Make sure API_URL is set correctly.', or a ticket. `Ticket`
      carries the text of each ticket element, the icon source and the text encoded in the QR
      symbol. */
  datatype View =
    | MissingRegNo
    | NotFound
    | FetchFailed
    | Ticket(name: string, regNo: string, branch: string, section: string, food: string,
             statusLine: string, foodIcon: string, qrText: string)

  /** The page's result together with the apiGet calls it made. */
  datatype PageOutcome = PageOutcome(view: View, calls: seq<Params>)

  /** The status element: `'Status: '` and the Status member, or `-` when it is missing or empty. */
  function StatusLine(d: Record): (line: string)
    ensures StartsWith(line, "Status: ")
    ensures Field(d, "Status") != "" ==> line[8..] == d["Status"]
    ensures Field(d, "Status") == "" ==> line[8..] == "-"
  {
    "Status: " + (if Field(d, "Status") != "" then Field(d, "Status") else "-")
  }

  /** The food icon: the veg icon exactly when the lower-cased Food starts with `veg`. */
  function FoodIcon(food: string): string {
    if StartsWith(LowerCase(food), "veg") then VegIcon else NonVegIcon
  }

  /** The veg icon is chosen exactly for a Food whose first three characters are v, e, g in any case. */
  lemma FoodIconMeaning(food: string)
    ensures FoodIcon(food) == VegIcon <==>
      |food| >= 3 && AsciiLower(food[0]) == 'v' && AsciiLower(food[1]) == 'e' && AsciiLower(food[2]) == 'g'
  {
    var lower := LowerCase(food);
    if |food| >= 3 {
      assert lower[..3] == [AsciiLower(food[0]), AsciiLower(food[1]), AsciiLower(food[2])];
    }
  }

  /** The request the page makes for `regNo`. */
  function PassRequest(regNo: string): Params {
    [("action", Some("getPass")), ("regNo", Some(regNo))]
  }

  /** The ticket filled from a pass record; every missing member reads as ''. */
  function TicketOf(d: Record): View {
    Ticket(Field(d, "Name"), Field(d, "RegNo"), Field(d, "Branch"), Field(d, "Section"), Field(d, "Food"),
           StatusLine(d), FoodIcon(Field(d, "Food")), QrText(d))
  }

  /** The page for address parameter `regNo` (None when absent). Without a truthy `regNo` nothing is
      requested. A reply whose status is not ok shows 'Pass not found'. A thrown error, and an ok
      reply without data (reading its members throws), end in the fetch-failure message. */
  function Page(regNo: Option<string>, net: Network, next: nat): (p: PageOutcome)
    ensures !Truthy(regNo) <==> p.calls == []
    ensures !Truthy(regNo) ==> p.view == MissingRegNo
    ensures Truthy(regNo) ==> p.calls == [PassRequest(regNo.value)]
    ensures Truthy(regNo) ==> var t := Get(PassRequest(regNo.value), net, next);
      && (t.result.Thrown? ==> p.view == FetchFailed)
      && (t.result.Returned? && t.result.value.status != Some("ok") ==> p.view == NotFound)
      && (t.result.Returned? && t.result.value.status == Some("ok") ==>
            p.view == if t.result.value.data.Some? then TicketOf(t.result.value.data.value) else FetchFailed)
  {
    if !Truthy(regNo) then PageOutcome(MissingRegNo, [])
    else
      var request := PassRequest(regNo.value);
      var t := Get(request, net, next);
      var view :=
        match t.result
        case Thrown(_) => FetchFailed
        case Returned(res) =>
          if res.status != Some("ok") then NotFound
          else match res.data
            case None => FetchFailed
            case Some(d) => TicketOf(d);
      PageOutcome(view, [request])
  }

  /** A QR text is built only for an ok reply that carries the pass. */
  lemma TicketOnlyForOkReply(regNo: Option<string>, net: Network, next: nat)
    requires Page(regNo, net, next).view.Ticket?
    ensures Truthy(regNo)
    ensures var t := Get(PassRequest(regNo.value), net, next);
      t.result.Returned? && t.result.value.status == Some("ok") && t.result.value.data.Some?
      && Page(regNo, net, next).view.qrText == QrText(t.result.value.data.value)
  {
  }

  /** The QR symbol of a ticket for a codec-safe pass decodes back to that pass's six members. */
  lemma TicketDecodes(d: Record)
    requires SafePass(d)
    ensures TicketOf(d).qrText == QrText(d)
    ensures Decode(TicketOf(d).qrText) == map["APP" := AppTag, "REG" := d["RegNo"], "NAME" := d["Name"],
      "BRANCH" := d["Branch"], "SEC" := d["Section"], "FOOD" := d["Food"]]
  {
    RoundTrip(d);
  }

  /** The page's request does not depend on the network: the address parameter is passed on unchanged. */
  lemma RequestCarriesRegNo(regNo: string, net: Network, next: nat)
    requires regNo != ""
    ensures Page(Some(regNo), net, next).calls == [PassRequest(regNo)]
    ensures PresentParams(PassRequest(regNo)) == [("action", "getPass"), ("regNo", regNo)]
  {
    var p := PassRequest(regNo);
    assert p[1..] == [("regNo", Some(regNo))];
    assert p[1..][1..] == [];
    assert PresentParams(p[1..]) == [("regNo", regNo)] + PresentParams([]);
  }
}
