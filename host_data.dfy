/** Resolving a request for one cell's value: the (table, field, record) triple comes
    from the options or, when allowed and the options do not give all three, from the
    host's current selection; an incomplete triple, or anything the host throws,
    becomes a failure result.

    The host is a parameter: `selection` is what asking for the current selection
    gives, and `read(table, field, record)` what reading the cell (its table, field,
    type and value) gives. An id the caller or the host did not give is the empty
    string, which the source treats as missing like `undefined`. */
module HostData {

  datatype GetDataOptions = GetDataOptions(tableId: string, fieldId: string, recordId: string,
                                           useCurrentSelection: UseSelection)

  /** The `useCurrentSelection` option: left out (which defaults to true) or given. */
  datatype UseSelection = Unset | Given(flag: bool)

  datatype Selection = Selection(tableId: string, fieldId: string, recordId: string)

  /** What a host call can throw: an `Error` with its message, or any other value. */
  datatype Thrown = ErrorObject(message: string) | OtherThrown

  /** The outcome of a host call. */
  datatype HostCall<T> = Returned(value: T) | Raised(thrown: Thrown)

  datatype StructuredData<V> =
    | Failure(error: string)
    | Success(data: V, tableId: string, fieldId: string, recordId: string)

  const NO_VALID_SELECTION := "未选中有效的单元格，请选择一个单元格或提供具体的tableId、fieldId、recordId参数"
  const MISSING_PARAMETERS := "缺少必要参数：tableId、fieldId、recordId"
  const UNKNOWN_ERROR := "获取数据时发生未知错误"

  predicate Complete(tableId: string, fieldId: string, recordId: string) {
    tableId != "" && fieldId != "" && recordId != ""
  }

  /** Whether the current selection is consulted: the flag (true when left out) is
      set and the options miss one of the three ids. */
  predicate ConsultsSelection(options: GetDataOptions) {
    var use := match options.useCurrentSelection
      case Unset => true
      case Given(flag) => flag;
    use && !Complete(options.tableId, options.fieldId, options.recordId)
  }

  /** The failure message for something the host threw. */
  function ErrorText(t: Thrown): (r: string)
    ensures t.ErrorObject? ==> r == t.message
    ensures t.OtherThrown? ==> r == UNKNOWN_ERROR
  {
    match t
    case ErrorObject(message) => message
    case OtherThrown => UNKNOWN_ERROR
  }

  /** The triple the request resolves to, or the failure that ends it before the cell
      is read. */
  function Resolve(options: GetDataOptions, selection: HostCall<Selection>): (r: StructuredData<()>)
    ensures r.Success? ==> Complete(r.tableId, r.fieldId, r.recordId)
    ensures r.Success? && !ConsultsSelection(options) ==>
      (r.tableId, r.fieldId, r.recordId) == (options.tableId, options.fieldId, options.recordId)
    ensures r.Success? && ConsultsSelection(options) ==>
      selection == Returned(Selection(r.tableId, r.fieldId, r.recordId))
    ensures r.Failure? <==>
      if ConsultsSelection(options) then
        selection.Raised? || !Complete(selection.value.tableId, selection.value.fieldId, selection.value.recordId)
      else !Complete(options.tableId, options.fieldId, options.recordId)
    ensures ConsultsSelection(options) && selection.Raised? ==> r == Failure(ErrorText(selection.thrown))
  {
    if ConsultsSelection(options) then
      match selection
      case Raised(t) => Failure(ErrorText(t))
      case Returned(s) =>
        if !Complete(s.tableId, s.fieldId, s.recordId) then Failure(NO_VALID_SELECTION)
        else Success((), s.tableId, s.fieldId, s.recordId)
    else if !Complete(options.tableId, options.fieldId, options.recordId) then Failure(MISSING_PARAMETERS)
    else Success((), options.tableId, options.fieldId, options.recordId)
  }

  /** `getStructuredData`: the resolved triple's cell value, tagged with the triple;
      every failure before or during the read is returned, never thrown. */
  function GetStructuredData<V>(options: GetDataOptions, selection: HostCall<Selection>,
                                read: (string, string, string) -> HostCall<V>): (r: StructuredData<V>)
    ensures r.Success? <==>
      Resolve(options, selection).Success? &&
      read(Resolve(options, selection).tableId, Resolve(options, selection).fieldId, Resolve(options, selection).recordId).Returned?
    ensures r.Success? ==>
      && Complete(r.tableId, r.fieldId, r.recordId)
      && read(r.tableId, r.fieldId, r.recordId) == Returned(r.data)
  {
    match Resolve(options, selection)
    case Failure(e) => Failure(e)
    case Success(_, t, f, rec) =>
      match read(t, f, rec)
      case Raised(thrown) => Failure(ErrorText(thrown))
      case Returned(v) => Success(v, t, f, rec)
  }

  /** With all three ids given the selection is never consulted, whatever the flag. */
  lemma ExplicitTripleBypassesSelection<V>(options: GetDataOptions, s1: HostCall<Selection>, s2: HostCall<Selection>,
                                           read: (string, string, string) -> HostCall<V>)
    requires Complete(options.tableId, options.fieldId, options.recordId)
    ensures GetStructuredData(options, s1, read) == GetStructuredData(options, s2, read)
    ensures GetStructuredData(options, s1, read).Success? ==>
      GetStructuredData(options, s1, read).tableId == options.tableId &&
      GetStructuredData(options, s1, read).fieldId == options.fieldId &&
      GetStructuredData(options, s1, read).recordId == options.recordId
  {
  }

  /** Leaving the flag out behaves as setting it to true. */
  lemma SelectionFlagDefaultsToTrue<V>(options: GetDataOptions, selection: HostCall<Selection>,
                                       read: (string, string, string) -> HostCall<V>)
    requires options.useCurrentSelection == Unset
    ensures GetStructuredData(options, selection, read) ==
      GetStructuredData(options.(useCurrentSelection := Given(true)), selection, read)
  {
  }

  /** An incomplete current selection fails with its own message, before any read. */
  lemma IncompleteSelectionFails<V>(options: GetDataOptions, s: Selection,
                                    read: (string, string, string) -> HostCall<V>)
    requires ConsultsSelection(options) && !Complete(s.tableId, s.fieldId, s.recordId)
    ensures GetStructuredData(options, Returned(s), read) == Failure(NO_VALID_SELECTION)
  {
  }

  /** Without the selection, an incomplete triple fails as missing parameters. */
  lemma MissingParametersFail<V>(options: GetDataOptions, selection: HostCall<Selection>,
                                 read: (string, string, string) -> HostCall<V>)
    requires options.useCurrentSelection == Given(false)
    requires !Complete(options.tableId, options.fieldId, options.recordId)
    ensures GetStructuredData(options, selection, read) == Failure(MISSING_PARAMETERS)
  {
  }

  /** A complete selection is read in full, even where the options gave some ids:
      the selection replaces all three. */
  lemma SelectionReplacesAllIds<V>(options: GetDataOptions, s: Selection, v: V,
                                   read: (string, string, string) -> HostCall<V>)
    requires ConsultsSelection(options) && Complete(s.tableId, s.fieldId, s.recordId)
    requires read(s.tableId, s.fieldId, s.recordId) == Returned(v)
    ensures GetStructuredData(options, Returned(s), read) == Success(v, s.tableId, s.fieldId, s.recordId)
  {
  }

  /** Whatever the host throws while the selection is asked for becomes a failure
      result carrying the error's message, or the generic message, and no cell is read. */
  lemma SelectionErrorsBecomeResults<V>(options: GetDataOptions, t: Thrown,
                                        read: (string, string, string) -> HostCall<V>)
    requires ConsultsSelection(options)
    ensures GetStructuredData(options, Raised(t), read) == Failure(ErrorText(t))
  {
  }

  /** Whatever the host throws while the cell is read becomes a failure result
      carrying the error's message, or the generic message for a non-error value. */
  lemma ReadErrorsBecomeResults<V>(options: GetDataOptions, selection: HostCall<Selection>,
                                   read: (string, string, string) -> HostCall<V>, t: Thrown)
    requires Resolve(options, selection).Success?
    requires read(Resolve(options, selection).tableId, Resolve(options, selection).fieldId,
                  Resolve(options, selection).recordId) == Raised(t)
    ensures GetStructuredData(options, selection, read) == Failure(ErrorText(t))
  {
  }
}
