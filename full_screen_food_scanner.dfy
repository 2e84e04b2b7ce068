/** The full-screen photo scanner (frontend/src/components/FullScreenFoodScanner.js):
    camera, then analysing, then the details form, then success. The camera, the canvas
    capture, the analysis request and the clock are parameters; what the component hands
    to its parent (`onFoodDetected`, `onClose`) is appended to `notices`. */
module FullScreenFoodScanner {
  import opened Wrappers
  import opened JsValues
  import opened Items
  import opened HtmlForms

  /** `currentStep`: one of these four, and nothing else. */
  datatype Step = Camera | Analyzing | Details | Success

  /** `formData`: `quantity` starts as the number 1 and becomes text once edited. */
  datatype FormData = FormData(price: string, store: string, quantity: Input, notes: string)

  const EmptyForm := FormData("", "", Preset(1), "")

  datatype FormField = PriceField | StoreField | QuantityField | NotesField

  /** What the component hands to its parent. */
  datatype Notice = FoodDetected(item: NewItem) | Closed

  const UnknownFoodItem := "Unknown Food Item"
  const OtherCategory := "Other"

  /** The value a form field holds, as an input element would show it. */
  function Get(f: FormData, field: FormField): Input {
    match field
    case PriceField => Typed(f.price)
    case StoreField => Typed(f.store)
    case QuantityField => f.quantity
    case NotesField => Typed(f.notes)
  }

  /** `handleInputChange(field, value)`: that field takes the value, every other field
      keeps its own. */
  function WithField(f: FormData, field: FormField, value: string): (r: FormData)
    ensures Get(r, field) == Typed(value)
    ensures forall g :: g != field ==> Get(r, g) == Get(f, g)
  {
    match field
    case PriceField => f.(price := value)
    case StoreField => f.(store := value)
    case QuantityField => f.(quantity := Typed(value))
    case NotesField => f.(notes := value)
  }

  /** The inputs of type `number`: price and quantity. */
  predicate IsNumberField(field: FormField) {
    field == PriceField || field == QuantityField
  }

  /** What an input passes to `handleInputChange` for the typed text. */
  function Reported(field: FormField, typed: string): string {
    if IsNumberField(field) then ReportedNumber(typed) else typed
  }

  /** The two inputs `saveItem` requires, price and store, are filled in. */
  predicate Filled(f: FormData) {
    f.price != "" && f.store != ""
  }

  /** The `itemData` that `saveItem` hands to `onFoodDetected`, at clock reading `now`. */
  function SavedItem(food: Option<ScannedFood>, f: FormData, image: Option<string>, now: nat): NewItem {
    var name := if food.Some? then food.value.name else None;
    var category := if food.Some? then food.value.category else None;
    var upc := if food.Some? then food.value.upc else None;
    var nutrition := if food.Some? && food.value.nutrition.Some? then food.value.nutrition.value else map[];
    NewItem(
      upc := OrDefault(upc, GeneratedUpc(now)),
      name := Some(OrDefault(name, UnknownFoodItem)),
      category := Some(OrDefault(category, OtherCategory)),
      purchasePrice := ParseFloat(f.price),
      store := f.store,
      quantity := ParseIntOf(f.quantity),
      notes := Some(f.notes),
      nutrition := Some(nutrition),
      image := image)
  }

  /** Each field of the saved item on its own: the name, category and identifier the
      analysis found when it is there and not empty, the default otherwise; the nutrition
      it found whenever it found any (an object is never falsy), `{}` otherwise; the form's
      values through `parseFloat`/`parseInt`. */
  lemma {:induction false} SavedItemFields(food: Option<ScannedFood>, f: FormData, image: Option<string>, now: nat)
    ensures var r := SavedItem(food, f, image, now);
      && r.name.Some? && r.name.value != "" && r.category.Some? && r.category.value != "" && r.upc != ""
      && (food.None? || food.value.name.None? || food.value.name.value == "" ==> r.name == Some(UnknownFoodItem))
      && (food.Some? && food.value.name.Some? && food.value.name.value != "" ==> r.name == food.value.name)
      && (food.None? || food.value.category.None? || food.value.category.value == "" ==>
            r.category == Some(OtherCategory))
      && (food.Some? && food.value.category.Some? && food.value.category.value != "" ==>
            r.category == food.value.category)
      && (food.None? || food.value.upc.None? || food.value.upc.value == "" ==> r.upc == GeneratedUpc(now))
      && (food.Some? && food.value.upc.Some? && food.value.upc.value != "" ==> r.upc == food.value.upc.value)
      && (food.None? || food.value.nutrition.None? ==> r.nutrition == Some(map[]))
      && (food.Some? && food.value.nutrition.Some? ==> r.nutrition == food.value.nutrition)
      && r.purchasePrice == ParseFloat(f.price) && r.store == f.store
      && r.quantity == ParseIntOf(f.quantity) && r.notes == Some(f.notes) && r.image == image
  {
    assert UnknownFoodItem != "" && OtherCategory != "";
  }

  /** The price input reports a number or nothing, and `saveItem` needs it filled in: a
      saved price is always the number the input holds, never NaN. */
  lemma SavedPriceIsNumber(food: Option<ScannedFood>, f: FormData, image: Option<string>, now: nat, typed: string)
    requires f.price == ReportedNumber(typed) && Filled(f)
    ensures SavedItem(food, f, image, now).purchasePrice == InputValue(Typed(typed))
    ensures SavedItem(food, f, image, now).purchasePrice.Finite?
  {
    ReportedNumberFacts(typed);
  }

  class Scanner {
    var currentStep: Step
    var capturedImage: Option<string>
    var analyzing: bool
    var foodData: Option<ScannedFood>
    var formData: FormData
    /** `streamRef.current != null`: the camera stream is running. */
    var cameraOn: bool
    var notices: seq<Notice>

    constructor ()
      ensures currentStep == Camera && capturedImage == None && !analyzing && foodData == None
      ensures formData == EmptyForm && !cameraOn && notices == []
    {
      currentStep := Camera;
      capturedImage := None;
      analyzing := false;
      foodData := None;
      formData := EmptyForm;
      cameraOn := false;
      notices := [];
    }

    /** `startCamera`; `granted`: the browser gave a stream; `videoMounted`: the video
        element exists. */
    method StartCamera(granted: bool, videoMounted: bool)
      modifies this
      ensures cameraOn == (old(cameraOn) || (granted && videoMounted))
      ensures currentStep == old(currentStep) && capturedImage == old(capturedImage)
      ensures foodData == old(foodData) && formData == old(formData) && notices == old(notices)
      ensures analyzing == old(analyzing)
    {
      if granted && videoMounted {
        cameraOn := true;
      }
    }

    /** `stopCamera` */
    method StopCamera()
      modifies this
      ensures !cameraOn
      ensures currentStep == old(currentStep) && capturedImage == old(capturedImage)
      ensures foodData == old(foodData) && formData == old(formData) && notices == old(notices)
      ensures analyzing == old(analyzing)
    {
      cameraOn := false;
    }

    /** `captureImage`: only with both the video and the canvas element present; stores
        the frame, stops the camera and starts the analysis. */
    method CaptureImage(videoMounted: bool, canvasMounted: bool, image: string)
      modifies this
      ensures videoMounted && canvasMounted ==>
        && capturedImage == Some(image) && currentStep == Analyzing && !cameraOn && analyzing
      ensures !(videoMounted && canvasMounted) ==>
        && capturedImage == old(capturedImage) && currentStep == old(currentStep)
        && cameraOn == old(cameraOn) && analyzing == old(analyzing)
      ensures foodData == old(foodData) && formData == old(formData) && notices == old(notices)
    {
      if videoMounted && canvasMounted {
        capturedImage := Some(image);
        currentStep := Analyzing;
        StopCamera();
        analyzing := true;
      }
    }

    /** The end of `analyzeFoodImage`; `result` is the analysis, `None` when the request
        failed. The details form follows either way. */
    method FinishAnalysis(result: Option<ScannedFood>)
      modifies this
      ensures currentStep == Details && !analyzing
      ensures foodData == if result.Some? then result else old(foodData)
      ensures capturedImage == old(capturedImage) && formData == old(formData)
      ensures cameraOn == old(cameraOn) && notices == old(notices)
    {
      if result.Some? {
        foodData := result;
      }
      currentStep := Details;
      analyzing := false;
    }

    /** `retakePhoto` */
    method RetakePhoto()
      modifies this
      ensures capturedImage == None && foodData == None && formData == EmptyForm
      ensures currentStep == Camera
      ensures cameraOn == old(cameraOn) && analyzing == old(analyzing) && notices == old(notices)
    {
      capturedImage := None;
      foodData := None;
      formData := EmptyForm;
      currentStep := Camera;
    }

    /** `handleInputChange(field, value)`, given the text now in the input; a number
        input passes on what it reports. */
    method HandleInputChange(field: FormField, typed: string)
      modifies this
      ensures formData == WithField(old(formData), field, Reported(field, typed))
      ensures currentStep == old(currentStep) && capturedImage == old(capturedImage)
      ensures foodData == old(foodData) && cameraOn == old(cameraOn)
      ensures analyzing == old(analyzing) && notices == old(notices)
    {
      formData := WithField(formData, field, Reported(field, typed));
    }

    /** `saveItem` at clock reading `now`: with price and store filled in, hands the item
        to the parent and shows success; otherwise changes nothing. */
    method SaveItem(now: nat)
      modifies this
      ensures !Filled(old(formData)) ==>
        notices == old(notices) && currentStep == old(currentStep)
      ensures Filled(old(formData)) ==>
        && notices == old(notices) + [FoodDetected(SavedItem(old(foodData), old(formData), old(capturedImage), now))]
        && currentStep == Success
      ensures capturedImage == old(capturedImage) && foodData == old(foodData) && formData == old(formData)
      ensures cameraOn == old(cameraOn) && analyzing == old(analyzing)
    {
      if !Filled(formData) {
        return;
      }
      var item := SavedItem(foodData, formData, capturedImage, now);
      notices := notices + [FoodDetected(item)];
      currentStep := Success;
    }

    /** `handleClose`: the `retakePhoto` reset with the camera stopped, then `onClose`. */
    method HandleClose()
      modifies this
      ensures currentStep == Camera && capturedImage == None && foodData == None
      ensures formData == EmptyForm && !cameraOn
      ensures notices == old(notices) + [Closed]
      ensures analyzing == old(analyzing)
    {
      StopCamera();
      currentStep := Camera;
      capturedImage := None;
      foodData := None;
      formData := EmptyForm;
      notices := notices + [Closed];
    }
  }
}
