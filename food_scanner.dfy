/** The inline photo scanner (frontend/src/components/FoodScanner.js): camera, capture,
    AI analysis of the package and the short price/store/quantity form. The camera, the
    canvas capture, the analysis answer and the clock are parameters; the items handed to
    `onFoodDetected` are appended to `detected`. */
module FoodScanner {
  import opened Wrappers
  import opened JsValues
  import opened Items
  import opened HtmlForms

  /** The `itemData` that `saveFoodItem` hands to `onFoodDetected`, at clock reading
      `now`: what the analysis found, as it found it, plus the form. */
  function FoodItem(food: ScannedFood, price: string, store: string, quantity: Input, now: nat): NewItem {
    NewItem(
      upc := OrDefault(food.upc, GeneratedUpc(now)),
      name := food.name,
      category := food.category,
      purchasePrice := ParseFloat(price),
      store := store,
      quantity := ParseIntOf(quantity),
      notes := None,
      nutrition := food.nutrition,
      image := None)
  }

  /** The item always has an identifier: the analysed UPC when there is a non-empty one,
      a clock-based one otherwise; name, category and nutrition are passed on as found,
      missing ones included. */
  lemma {:induction false} FoodItemFields(food: ScannedFood, price: string, store: string, quantity: Input, now: nat)
    ensures var r := FoodItem(food, price, store, quantity, now);
      && r.upc != ""
      && (food.upc.Some? && food.upc.value != "" ==> r.upc == food.upc.value)
      && (food.upc.None? || food.upc.value == "" ==> r.upc == GeneratedUpc(now))
      && r.name == food.name && r.category == food.category && r.nutrition == food.nutrition
      && r.purchasePrice == ParseFloat(price) && r.store == store && r.quantity == ParseIntOf(quantity)
      && r.notes.None? && r.image.None?
  {
  }

  /** Two packages without a UPC saved at different instants get different
      identifiers. */
  lemma {:induction false} GeneratedUpcsDiffer(food: ScannedFood, price: string, store: string, quantity: Input, t1: nat, t2: nat)
    requires food.upc.None? && t1 != t2
    ensures FoodItem(food, price, store, quantity, t1).upc != FoodItem(food, price, store, quantity, t2).upc
  {
    NatToStringRoundTrip(t1);
    NatToStringRoundTrip(t2);
    assert NatToString(t1) != NatToString(t2);
    assert GeneratedUpc(t1)[5..] == NatToString(t1);
    assert GeneratedUpc(t2)[5..] == NatToString(t2);
  }

  /** The price input reports a number or nothing, and `saveFoodItem` needs it filled in:
      a saved price is always the number the input holds, never NaN. */
  lemma SavedPriceIsNumber(food: ScannedFood, typed: string, store: string, quantity: Input, now: nat)
    requires ReportedNumber(typed) != ""
    ensures FoodItem(food, ReportedNumber(typed), store, quantity, now).purchasePrice == InputValue(Typed(typed))
    ensures FoodItem(food, ReportedNumber(typed), store, quantity, now).purchasePrice.Finite?
  {
    ReportedNumberFacts(typed);
  }

  class Scanner {
    var isScanning: bool
    var capturedImage: Option<string>
    var analyzing: bool
    var foodData: Option<ScannedFood>
    var price: string
    var store: string
    /** Starts as the number 1 and becomes text once edited. */
    var quantity: Input
    /** `streamRef.current != null`: the camera stream is running. */
    var cameraOn: bool
    var detected: seq<NewItem>

    constructor ()
      ensures !isScanning && capturedImage == None && !analyzing && foodData == None
      ensures price == "" && store == "" && quantity == Preset(1) && !cameraOn && detected == []
    {
      isScanning := false;
      capturedImage := None;
      analyzing := false;
      foodData := None;
      price := "";
      store := "";
      quantity := Preset(1);
      cameraOn := false;
      detected := [];
    }

    /** `startCamera`; `granted`: the browser gave a stream; `videoMounted`: the video
        element exists. A granted stream shows the camera view even when it could not be
        attached. */
    method StartCamera(granted: bool, videoMounted: bool)
      modifies this
      ensures isScanning == (old(isScanning) || granted)
      ensures cameraOn == (old(cameraOn) || (granted && videoMounted))
      ensures capturedImage == old(capturedImage) && foodData == old(foodData) && analyzing == old(analyzing)
      ensures price == old(price) && store == old(store) && quantity == old(quantity) && detected == old(detected)
    {
      if granted {
        if videoMounted {
          cameraOn := true;
        }
        isScanning := true;
      }
    }

    /** `stopCamera` */
    method StopCamera()
      modifies this
      ensures !cameraOn && !isScanning
      ensures capturedImage == old(capturedImage) && foodData == old(foodData) && analyzing == old(analyzing)
      ensures price == old(price) && store == old(store) && quantity == old(quantity) && detected == old(detected)
    {
      cameraOn := false;
      isScanning := false;
    }

    /** `captureImage`: only with both the video and the canvas element present. */
    method CaptureImage(videoMounted: bool, canvasMounted: bool, image: string)
      modifies this
      ensures videoMounted && canvasMounted ==> capturedImage == Some(image) && !cameraOn && !isScanning
      ensures !(videoMounted && canvasMounted) ==>
        capturedImage == old(capturedImage) && cameraOn == old(cameraOn) && isScanning == old(isScanning)
      ensures foodData == old(foodData) && analyzing == old(analyzing)
      ensures price == old(price) && store == old(store) && quantity == old(quantity) && detected == old(detected)
    {
      if videoMounted && canvasMounted {
        capturedImage := Some(image);
        StopCamera();
      }
    }

    /** `analyzeFood`; `result` is the analysis, `None` when the request failed. Without
        a photo nothing happens. */
    method AnalyzeFood(result: Option<ScannedFood>)
      modifies this
      ensures old(capturedImage).None? ==> foodData == old(foodData) && analyzing == old(analyzing)
      ensures old(capturedImage).Some? ==>
        !analyzing && foodData == if result.Some? then result else old(foodData)
      ensures capturedImage == old(capturedImage) && isScanning == old(isScanning) && cameraOn == old(cameraOn)
      ensures price == old(price) && store == old(store) && quantity == old(quantity) && detected == old(detected)
    {
      if capturedImage.None? {
        return;
      }
      analyzing := true;
      if result.Some? {
        foodData := result;
      }
      analyzing := false;
    }

    /** The price, store and quantity inputs, given the text now in the input; the price
        and quantity inputs are of type `number` and pass on what they report. */
    method SetPrice(typed: string)
      modifies this
      ensures price == ReportedNumber(typed)
      ensures store == old(store) && quantity == old(quantity) && capturedImage == old(capturedImage)
      ensures foodData == old(foodData) && detected == old(detected)
      ensures isScanning == old(isScanning) && cameraOn == old(cameraOn) && analyzing == old(analyzing)
    {
      price := ReportedNumber(typed);
    }

    method SetStore(value: string)
      modifies this
      ensures store == value
      ensures price == old(price) && quantity == old(quantity) && capturedImage == old(capturedImage)
      ensures foodData == old(foodData) && detected == old(detected)
      ensures isScanning == old(isScanning) && cameraOn == old(cameraOn) && analyzing == old(analyzing)
    {
      store := value;
    }

    method SetQuantity(typed: string)
      modifies this
      ensures quantity == Typed(ReportedNumber(typed))
      ensures price == old(price) && store == old(store) && capturedImage == old(capturedImage)
      ensures foodData == old(foodData) && detected == old(detected)
      ensures isScanning == old(isScanning) && cameraOn == old(cameraOn) && analyzing == old(analyzing)
    {
      quantity := Typed(ReportedNumber(typed));
    }

    /** The three required fields of `saveFoodItem` are there. */
    predicate ReadyToSave()
      reads this
    {
      foodData.Some? && price != "" && store != ""
    }

    /** `saveFoodItem` at clock reading `now`: needs an analysis, a price and a store;
        hands the item on and resets photo, analysis and form. */
    method SaveFoodItem(now: nat)
      modifies this
      ensures isScanning == old(isScanning) && cameraOn == old(cameraOn) && analyzing == old(analyzing)
      ensures !old(ReadyToSave()) ==>
        && detected == old(detected) && foodData == old(foodData) && capturedImage == old(capturedImage)
        && price == old(price) && store == old(store) && quantity == old(quantity)
      ensures old(ReadyToSave()) ==>
        && detected == old(detected) + [FoodItem(old(foodData).value, old(price), old(store), old(quantity), now)]
        && capturedImage == None && foodData == None && price == "" && store == "" && quantity == Preset(1)
    {
      if ReadyToSave() {
        var item := FoodItem(foodData.value, price, store, quantity, now);
        detected, capturedImage, foodData := detected + [item], None, None;
        price, store, quantity := "", "", Preset(1);
      }
    }

    /** "Retake Photo": drops the photo only; an analysis already made is kept. */
    method Retake()
      modifies this
      ensures capturedImage == None
      ensures foodData == old(foodData) && price == old(price) && store == old(store) && quantity == old(quantity)
      ensures isScanning == old(isScanning) && cameraOn == old(cameraOn) && analyzing == old(analyzing)
      ensures detected == old(detected)
    {
      capturedImage := None;
    }
  }
}
