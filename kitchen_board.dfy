/**
 * The chef's board: unwrapping the order-list response, the id and quantity
 * fallbacks, the status normaliser, the status colours, and the single
 * forward action offered per status.
 */
module KitchenBoard {
  import opened Wrappers
  import opened JsValues
  import opened JsStrings

  // ---------------------------------------------------------------- response shapes

  /**
   * The orders to show: the response itself when it is an array, else its
   * `orders`, else its `data`, else an empty array. An undefined response
   * defaults to an empty array.
   */
  function OrderList(response: Option<Json>): Json
  {
    var data := response.GetOr(JArr([]));
    if data.JArr? then data
    else Or(Field(data, "orders"), Or(Field(data, "data"), JArr([])))
  }

  /** Each shape of response, and the fact that the result is never a falsy value. */
  lemma OrderListShapes(response: Option<Json>)
    ensures response.None? ==> OrderList(response) == JArr([])
    ensures response.Some? && response.value.JArr? ==> OrderList(response) == response.value
    ensures response.Some? && !response.value.JArr? ==>
              var orders := Field(response.value, "orders");
              var data := Field(response.value, "data");
              OrderList(response) ==
                if orders.Some? && Truthy(orders.value) then orders.value
                else if data.Some? && Truthy(data.value) then data.value
                else JArr([])
    ensures OrderList(response) == JArr([]) || Truthy(OrderList(response))
  {
  }

  /** `order.id || order._id`: a falsy `id` falls back to `_id`, which may be undefined. */
  function OrderId(order: map<string, Json>): (r: Option<Json>)
    ensures "id" in order && Truthy(order["id"]) ==> r == Some(order["id"])
    ensures !("id" in order && Truthy(order["id"])) ==> r == (if "_id" in order then Some(order["_id"]) else None)
  {
    var id := Field(JObj(order), "id");
    if id.Some? && Truthy(id.value) then id else Field(JObj(order), "_id")
  }

  /** `item.qty ?? item.quantity ?? 1`: only null or undefined fall through, so a qty of 0 is shown as 0. */
  function DisplayQty(item: map<string, Json>): (r: Json)
    ensures "qty" in item && item["qty"] != JNull ==> r == item["qty"]
    ensures !("qty" in item && item["qty"] != JNull) && "quantity" in item && item["quantity"] != JNull ==>
              r == item["quantity"]
    ensures !("qty" in item && item["qty"] != JNull) && !("quantity" in item && item["quantity"] != JNull) ==>
              r == JNum(1)
  {
    Coalesce(Field(JObj(item), "qty"), Coalesce(Field(JObj(item), "quantity"), JNum(1)))
  }

  // ---------------------------------------------------------------- status

  const NewSynonyms: seq<string> := ["new", "pending", "placed"]
  const PreparingSynonyms: seq<string> := ["preparing", "cooking", "in_progress"]
  const ReadySynonyms: seq<string> := ["ready", "done", "completed"]

  predicate IsCanonical(status: string)
  {
    status == "NEW" || status == "PREPARING" || status == "READY"
  }

  /**
   * `normalizeStatus` of a string status (`None` for undefined or null):
   * synonyms map to NEW / PREPARING / READY in any letter case, anything
   * else is passed through upper-cased, and a missing or empty status is "".
   */
  function NormalizeStatus(status: Option<string>): string
  {
    if status.None? || status.value == "" then ""
    else
      var s := ToLower(status.value);
      if s in NewSynonyms then "NEW"
      else if s in PreparingSynonyms then "PREPARING"
      else if s in ReadySynonyms then "READY"
      else ToUpper(s)
  }

  /** The normaliser yields "" exactly for a missing or empty status. */
  lemma NormalizeEmptyIff(status: Option<string>)
    ensures NormalizeStatus(status) == "" <==> status.None? || status.value == ""
  {
    if status.Some? && status.value != "" {
      assert |ToUpper(ToLower(status.value))| == |status.value|;
    }
  }

  /** Upper-casing a lower-cased status yields a canonical name only for that name's own spelling. */
  lemma UpperOfLoweredIsCanonical(raw: string, canonical: string)
    requires ToUpper(ToLower(raw)) == canonical
    ensures ToLower(raw) == ToLower(canonical)
  {
    LowerOfUpper(ToLower(raw));
    LowerIdempotent(raw);
  }

  /** The lower-case spellings of the canonical names. */
  lemma CanonicalSpellings()
    ensures ToLower("NEW") == "new"
    ensures ToLower("PREPARING") == "preparing"
    ensures ToLower("READY") == "ready"
  {
  }

  /** Each canonical status is reached exactly from its synonyms, in any letter case. */
  lemma NormalizeCanonicalIff(raw: string)
    requires raw != ""
    ensures NormalizeStatus(Some(raw)) == "NEW" <==> ToLower(raw) in NewSynonyms
    ensures NormalizeStatus(Some(raw)) == "PREPARING" <==> ToLower(raw) in PreparingSynonyms
    ensures NormalizeStatus(Some(raw)) == "READY" <==> ToLower(raw) in ReadySynonyms
  {
    var s := ToLower(raw);
    if s !in NewSynonyms && s !in PreparingSynonyms && s !in ReadySynonyms {
      var u := ToUpper(s);
      assert NormalizeStatus(Some(raw)) == u;
      CanonicalSpellings();
      if IsCanonical(u) {
        UpperOfLoweredIsCanonical(raw, u);
      }
    }
  }

  /** A status that is no known synonym comes out as its upper-cased form. */
  lemma NormalizeUnknown(raw: string)
    requires raw != ""
    requires ToLower(raw) !in NewSynonyms + PreparingSynonyms + ReadySynonyms
    ensures NormalizeStatus(Some(raw)) == ToUpper(raw)
  {
    UpperOfLower(raw);
  }

  /** A canonical status normalises to itself. */
  lemma NormalizeCanonical(status: string)
    requires IsCanonical(status)
    ensures NormalizeStatus(Some(status)) == status
  {
    CanonicalSpellings();
  }

  /** A status passed through upper-cased normalises to itself again. */
  lemma NormalizePassThrough(raw: string)
    requires raw != ""
    requires NormalizeStatus(Some(raw)) == ToUpper(ToLower(raw))
    ensures NormalizeStatus(Some(ToUpper(ToLower(raw)))) == ToUpper(ToLower(raw))
  {
    var s := ToLower(raw);
    LowerOfUpper(s);
    LowerIdempotent(raw);
    UpperOfLower(s);
  }

  /** Normalising a normalised status changes nothing. */
  lemma NormalizeIdempotent(status: Option<string>)
    ensures NormalizeStatus(Some(NormalizeStatus(status))) == NormalizeStatus(status)
  {
    var n := NormalizeStatus(status);
    if IsCanonical(n) {
      NormalizeCanonical(n);
    } else if n != "" {
      NormalizePassThrough(status.value);
    }
  }

  /** Synonyms match in any letter case. */
  lemma NormalizeExamples()
    ensures NormalizeStatus(Some("placed")) == "NEW"
    ensures NormalizeStatus(Some("In_Progress")) == "PREPARING"
    ensures NormalizeStatus(Some("DONE")) == "READY"
  {
    assert ToLower("placed") == "placed";
    assert ToLower("In_Progress") == "in_progress";
    assert ToLower("DONE") == "done";
  }

  /** An unknown status is passed through upper-cased, and offers no action. */
  lemma UnknownExample()
    ensures NormalizeStatus(Some("weird_value")) == "WEIRD_VALUE"
    ensures ActionButtons("WEIRD_VALUE") == []
  {
    var s := ToLower("weird_value");
    assert s == "weird_value";
    assert s != "in_progress" by { assert s[0] != "in_progress"[0]; }
    assert ToUpper(s) == "WEIRD_VALUE";
  }

  // ---------------------------------------------------------------- colours

  const NewColor := "bg-yellow-100 text-yellow-800 border-yellow-400"
  const PreparingColor := "bg-blue-100 text-blue-800 border-blue-400"
  const ReadyColor := "bg-green-100 text-green-800 border-green-400"
  const DefaultColor := "bg-gray-100 text-gray-700 border-gray-300"

  /** `statusColor`. */
  function StatusColor(status: string): string
  {
    if status == "NEW" then NewColor
    else if status == "PREPARING" then PreparingColor
    else if status == "READY" then ReadyColor
    else DefaultColor
  }

  /** The three canonical statuses get three different colours, and every other status the grey default. */
  lemma StatusColorDistinct(a: string, b: string)
    ensures StatusColor(a) == DefaultColor <==> !IsCanonical(a)
    ensures IsCanonical(a) && IsCanonical(b) ==> (StatusColor(a) == StatusColor(b) <==> a == b)
  {
    assert NewColor[3] != PreparingColor[3] && NewColor[3] != ReadyColor[3] && PreparingColor[3] != ReadyColor[3];
    assert NewColor[3] != DefaultColor[3] && PreparingColor[3] != DefaultColor[3] && ReadyColor[5] != DefaultColor[5];
  }

  // ---------------------------------------------------------------- actions

  /** A button on an order card: `target` is the status it requests, if any. */
  datatype Button = Button(caption: string, target: Option<string>, disabled: bool)

  const StartCooking := Button("Start Cooking", Some("PREPARING"), false)
  const MarkReady := Button("Mark Ready", Some("READY"), false)
  const WaitingForPickup := Button("Waiting for Pickup", None, true)

  /** The card's three independent `status === ... &&` button conditions, in order. */
  function ActionButtons(status: string): seq<Button>
  {
    (if status == "NEW" then [StartCooking] else [])
    + (if status == "PREPARING" then [MarkReady] else [])
    + (if status == "READY" then [WaitingForPickup] else [])
  }

  /** Position in the kitchen lifecycle NEW, PREPARING, READY. */
  function Stage(status: string): nat
    requires IsCanonical(status)
  {
    if status == "NEW" then 0 else if status == "PREPARING" then 1 else 2
  }

  /** One button for each canonical status and none otherwise; only READY's is disabled and it requests nothing. */
  lemma ActionGate(status: string)
    ensures IsCanonical(status) ==> |ActionButtons(status)| == 1
    ensures !IsCanonical(status) ==> ActionButtons(status) == []
    ensures status == "NEW" ==> ActionButtons(status) == [StartCooking]
    ensures status == "PREPARING" ==> ActionButtons(status) == [MarkReady]
    ensures status == "READY" ==> ActionButtons(status) == [WaitingForPickup]
  {
  }

  /** Every offered transition goes exactly one stage forward, and its target is already normalised. */
  lemma ForwardOnly(status: string, b: Button)
    requires b in ActionButtons(status) && b.target.Some?
    ensures IsCanonical(status) && IsCanonical(b.target.value)
    ensures Stage(b.target.value) == Stage(status) + 1
    ensures !b.disabled
    ensures NormalizeStatus(b.target) == b.target.value
  {
    CanonicalSpellings();
  }

  /** A backend status that is no known synonym is shown without any button. */
  lemma UnknownStatusOffersNothing(raw: string)
    requires ToLower(raw) !in NewSynonyms + PreparingSynonyms + ReadySynonyms
    ensures ActionButtons(NormalizeStatus(Some(raw))) == []
    ensures StatusColor(NormalizeStatus(Some(raw))) == DefaultColor
  {
    if raw != "" {
      NormalizeCanonicalIff(raw);
    }
  }
}
