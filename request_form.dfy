/** The new-request form: its waypoint and file lists, the margin preview, and the check made on submit. */
module RequestForm {
  import opened Wrappers
  import opened Seqs
  import opened Decimal
  import Utils

  /** A file picked in the upload input; only its name is shown. */
  datatype UploadedFile = UploadedFile(name: string, size: nat)

  /**
   * The form's state. The amounts are kept as the text typed into their inputs; a date is absent until one
   * is picked, and is kept as the picked day's text.
   */
  datatype FormData = FormData(
    routeFrom: string,
    routeTo: string,
    waypoints: seq<string>,
    loadingDate: Option<string>,
    unloadingDate: Option<string>,
    driverName: string,
    driverIin: string,
    vehicleStateNumber: string,
    vehicleType: string,
    hasTractor: bool,
    hasTrailer: bool,
    cargoName: string,
    cargoWeight: string,
    palletCount: string,
    temperatureMode: string,
    costToDriver: string,
    priceFromCustomer: string,
    advance: string,
    uploadedFiles: seq<UploadedFile>)

  /** The form as it opens: every text empty, no date, both boxes unticked, no waypoint and no file. */
  const InitialForm: FormData :=
    FormData("", "", [], None, None, "", "", "", "", false, false, "", "", "", "", "", "", "", [])

  /** What submitting requires: both ends of the route typed in and both dates picked. */
  predicate RequiredFilled(f: FormData)
  {
    f.routeFrom != "" && f.routeTo != "" && f.loadingDate.Some? && f.unloadingDate.Some?
  }

  /** Only the four required fields decide whether submitting is accepted. */
  lemma SubmitDependsOnlyOnRequired(f: FormData, g: FormData)
    requires f.routeFrom == g.routeFrom && f.routeTo == g.routeTo
    requires f.loadingDate == g.loadingDate && f.unloadingDate == g.unloadingDate
    ensures RequiredFilled(f) <==> RequiredFilled(g)
  {
  }

  /** The form as it opens cannot be submitted, and filling in the four required fields is enough to submit it. */
  lemma InitialFormNeedsRequired(from: string, to: string, loading: string, unloading: string)
    ensures !RequiredFilled(InitialForm)
    ensures from != "" && to != "" ==>
      RequiredFilled(InitialForm.(routeFrom := from, routeTo := to, loadingDate := Some(loading), unloadingDate := Some(unloading)))
  {
  }

  /**
   * `Number.parseFloat(text) || 0`: the number the text starts with, or 0 when it starts with none (NaN
   * is falsy, and so is 0 itself, which the fallback returns unchanged).
   */
  function AmountOrZero(text: string): (amount: int)
    ensures ParseLeadingInt(text).Some? ==> amount == ParseLeadingInt(text).value
    ensures ParseLeadingInt(text).None? ==> amount == 0
  {
    ParseLeadingInt(text).GetOr(0)
  }

  /** An amount written out the way the number input holds it reads back as itself. */
  lemma AmountOfShownInt(n: int)
    ensures AmountOrZero(ShowInt(n)) == n
  {
    ParseShowInt(n);
  }

  /** Text with no leading number counts as 0. */
  lemma AmountOfText(text: string)
    requires |text| > 0 && text[0] != '+' && text[0] != '-' && !IsDigit(text[0]) && !IsSpace(text[0])
    ensures AmountOrZero(text) == 0
  {
  }

  /** The form's `calculateMargin`: the customer's price less the driver's cost, each read as above. */
  function FormMargin(f: FormData): (margin: int)
    ensures AmountOrZero(f.costToDriver) + margin == AmountOrZero(f.priceFromCustomer)
  {
    Utils.CalculateMargin(AmountOrZero(f.priceFromCustomer), AmountOrZero(f.costToDriver))
  }

  /** Typed-in amounts give the margin of the amounts themselves. */
  lemma FormMarginOfShownAmounts(f: FormData, cost: int, price: int)
    requires f.costToDriver == ShowInt(cost) && f.priceFromCustomer == ShowInt(price)
    ensures FormMargin(f) == price - cost
  {
    AmountOfShownInt(cost);
    AmountOfShownInt(price);
  }

  /** The margin line is shown only when both amounts are non-empty text, and then shows `FormMargin`. */
  function MarginPreview(f: FormData): (shown: Option<int>)
    ensures shown.Some? <==> f.costToDriver != "" && f.priceFromCustomer != ""
    ensures shown.Some? ==> shown.value == FormMargin(f)
  {
    if f.costToDriver != "" && f.priceFromCustomer != "" then Some(FormMargin(f)) else None
  }

  /** The form component's state. */
  class RequestFormState {
    var formData: FormData

    constructor()
      ensures formData == InitialForm
    {
      formData := InitialForm;
    }

    /** `addWaypoint`: one more, empty, waypoint at the end. */
    method AddWaypoint()
      modifies this`formData
      ensures formData == old(formData).(waypoints := old(formData).waypoints + [""])
    {
      formData := formData.(waypoints := formData.waypoints + [""]);
    }

    /** `removeWaypoint`: the waypoint at `index` goes; an index outside the list removes nothing. */
    method RemoveWaypoint(index: int)
      modifies this`formData
      ensures formData == old(formData).(waypoints := RemoveAt(old(formData).waypoints, index))
    {
      formData := formData.(waypoints := RemoveAt(formData.waypoints, index));
    }

    /** `updateWaypoint`: the waypoint at `index` becomes `value`; an index outside the list changes nothing. */
    method UpdateWaypoint(index: int, value: string)
      modifies this`formData
      ensures formData == old(formData).(waypoints := ReplaceAt(old(formData).waypoints, index, value))
    {
      formData := formData.(waypoints := ReplaceAt(formData.waypoints, index, value));
    }

    /** `handleFileUpload`: the chosen files are appended in order; no file list (`files` null) appends nothing. */
    method HandleFileUpload(files: Option<seq<UploadedFile>>)
      modifies this`formData
      ensures formData == old(formData).(uploadedFiles := old(formData).uploadedFiles + files.GetOr([]))
    {
      formData := formData.(uploadedFiles := formData.uploadedFiles + files.GetOr([]));
    }

    /** `removeFile`: the file at `index` goes; an index outside the list removes nothing. */
    method RemoveFile(index: int)
      modifies this`formData
      ensures formData == old(formData).(uploadedFiles := RemoveAt(old(formData).uploadedFiles, index))
    {
      formData := formData.(uploadedFiles := RemoveAt(formData.uploadedFiles, index));
    }

    /** The route inputs. */
    method SetRoute(from: string, to: string)
      modifies this`formData
      ensures formData == old(formData).(routeFrom := from, routeTo := to)
    {
      formData := formData.(routeFrom := from, routeTo := to);
    }

    /** The two date pickers; a cleared picker leaves the date absent. */
    method SetDates(loading: Option<string>, unloading: Option<string>)
      modifies this`formData
      ensures formData == old(formData).(loadingDate := loading, unloadingDate := unloading)
    {
      formData := formData.(loadingDate := loading, unloadingDate := unloading);
    }

    /** The two amount inputs of the payment section. */
    method SetAmounts(cost: string, price: string)
      modifies this`formData
      ensures formData == old(formData).(costToDriver := cost, priceFromCustomer := price)
    {
      formData := formData.(costToDriver := cost, priceFromCustomer := price);
    }

    /**
     * `handleSubmit`: accepted exactly when both ends of the route and both dates are filled in. Either way
     * the form keeps its contents; an accepted form is only logged.
     */
    method HandleSubmit() returns (accepted: bool)
      ensures accepted <==> formData.routeFrom != "" && formData.routeTo != "" && formData.loadingDate.Some? && formData.unloadingDate.Some?
    {
      accepted := RequiredFilled(formData);
    }
  }

  /** Adding a waypoint and removing the last one restores the list, so the two buttons undo each other. */
  lemma RemoveAddedWaypoint(f: FormData)
    ensures RemoveAt(f.waypoints + [""], |f.waypoints|) == f.waypoints
  {
    RemoveAfterAppend(f.waypoints, "");
  }

  /** Uploading one file and removing it again, by the index the list shows it at, restores the list. */
  lemma RemoveUploadedFile(f: FormData, file: UploadedFile)
    ensures RemoveAt(f.uploadedFiles + [file], |f.uploadedFiles|) == f.uploadedFiles
  {
    RemoveAfterAppend(f.uploadedFiles, file);
  }
}
