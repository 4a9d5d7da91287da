/**
 * `format_json_to_document` (`utils/json_formatter.py`): a JSON-like value rendered as an
 * indented document, one line per entry. The recursive generator is modelled as a
 * function from a value to the lines it yields; the document is their concatenation.
 *
 * Values are `None`, booleans, integers, strings, lists and dicts; Python's `str()` of a
 * scalar is written out for these.
 */
module JsonFormatter {
  import opened Wrappers
  import opened PyStr
  import opened JsonValue
  import opened Tabulation

  /** The keyword arguments of `format_json_to_document` other than `data` and `level`. */
  datatype Options = Options(
    indentSize: int,
    previewLength: int,
    maxLength: int,
    showListIndices: bool,
    nullPlaceholder: string,
    emptyPlaceholder: string)

  const Defaults := Options(1, 100, 500, true, "null", "[empty]")

  /** Python's `" " * n`: no spaces when `n` is not positive. */
  function Spaces(n: int): (r: string)
    ensures |r| == (if n < 0 then 0 else n)
    ensures forall k :: 0 <= k < |r| ==> r[k] == ' '
    decreases n
  {
    if n <= 0 then "" else Spaces(n - 1) + " "
  }

  predicate IsContainer(v: Json)
  {
    v.JArr? || v.JObj?
  }

  predicate IsEmptyContainer(v: Json)
  {
    (v.JArr? && v.items == []) || (v.JObj? && v.fields == [])
  }

  /** `_truncate_value`. */
  function Truncate(value: string, previewLength: int, maxLength: int): string
  {
    if |value| > maxLength then Take(value, previewLength) + "..." else value
  }

  /** The lines `_format_recursive(obj, level)` yields. */
  function Lines(o: Options, obj: Json, level: int): seq<string>
    decreases obj, 1, 0, 0
  {
    var indent := Spaces(level);
    if obj.JNull? then [indent + o.nullPlaceholder + "\n"]
    else if IsEmptyContainer(obj) then [indent + o.emptyPlaceholder + "\n"]
    else if obj.JArr? then ItemLines(o, obj, 0, level)
    else if obj.JObj? then FieldLines(o, obj, 0, level)
    else [indent + Str(obj) + "\n"]
  }

  /** The lines of the list items from index `i` on. */
  function ItemLines(o: Options, list: Json, i: nat, level: int): seq<string>
    requires list.JArr? && i <= |list.items|
    decreases list, 0, |list.items| - i, 1
  {
    if i == |list.items| then [] else ItemEntry(o, list, i, level) + ItemLines(o, list, i + 1, level)
  }

  /** The lines of list item `i`: `None` and scalars on one line (prefixed by the index
      when indices are shown), a container under an index header one level deeper. */
  function ItemEntry(o: Options, list: Json, i: nat, level: int): seq<string>
    requires list.JArr? && i < |list.items|
    decreases list, 0, |list.items| - i, 0
  {
    var item := list.items[i];
    var indent := Spaces(level);
    var prefix := if o.showListIndices then IntText(i) + ": " else "";
    if item.JNull? then [indent + prefix + o.nullPlaceholder + "\n"]
    else if IsContainer(item) then
      (if o.showListIndices then [indent + IntText(i) + ":\n"] else []) + ContainerBody(o, item, level)
    else [indent + prefix + Truncate(Str(item), o.previewLength, o.maxLength) + "\n"]
  }

  /** The lines of the dict entries from position `i` on. */
  function FieldLines(o: Options, dict: Json, i: nat, level: int): seq<string>
    requires dict.JObj? && i <= |dict.fields|
    decreases dict, 0, |dict.fields| - i, 1
  {
    if i == |dict.fields| then [] else FieldEntry(o, dict, i, level) + FieldLines(o, dict, i + 1, level)
  }

  /** The lines of dict entry `i`: `key: value` for `None`, an empty container or a
      scalar, and a `key:` header over the contents one level deeper otherwise. */
  function FieldEntry(o: Options, dict: Json, i: nat, level: int): seq<string>
    requires dict.JObj? && i < |dict.fields|
    decreases dict, 0, |dict.fields| - i, 0
  {
    var key := dict.fields[i].0;
    var value := dict.fields[i].1;
    assert value < dict.fields[i] && dict.fields[i] in dict.fields;
    var indent := Spaces(level);
    if value.JNull? then [indent + key + ": " + o.nullPlaceholder + "\n"]
    else if IsEmptyContainer(value) then [indent + key + ": " + o.emptyPlaceholder + "\n"]
    else if IsContainer(value) then [indent + key + ":\n"] + Lines(o, value, level + o.indentSize)
    else [indent + key + ": " + Truncate(Str(value), o.previewLength, o.maxLength) + "\n"]
  }

  /** `format_json_to_document`: the options are checked first, in this order. */
  function FormatJsonToDocument(data: Json, level: int, o: Options): Result<string>
  {
    if o.indentSize < 1 then Failure("indent_size must be positive")
    else if o.previewLength < 1 then Failure("preview_length must be positive")
    else if o.maxLength <= o.previewLength then Failure("max_length must be greater than preview_length")
    else Success(Join("", Lines(o, data, level)))
  }

  predicate ValidOptions(o: Options)
  {
    o.indentSize >= 1 && o.previewLength >= 1 && o.maxLength > o.previewLength
  }

  // ----- properties -----

  /** The options are checked before anything is formatted: the document exists exactly
      when they are valid. */
  lemma {:induction false} FormatFailsIffInvalid(data: Json, level: int, o: Options)
    ensures FormatJsonToDocument(data, level, o).Failure? <==> !ValidOptions(o)
    ensures o.indentSize < 1 ==>
      FormatJsonToDocument(data, level, o) == Failure("indent_size must be positive")
    ensures o.indentSize >= 1 && o.previewLength < 1 ==>
      FormatJsonToDocument(data, level, o) == Failure("preview_length must be positive")
    ensures o.indentSize >= 1 && o.previewLength >= 1 && o.maxLength <= o.previewLength ==>
      FormatJsonToDocument(data, level, o) == Failure("max_length must be greater than preview_length")
  {
  }

  /** A value within the limit is kept; a longer one becomes its first `previewLength`
      characters and an ellipsis. Truncating twice changes nothing more. */
  lemma {:induction false} TruncateShape(value: string, previewLength: int, maxLength: int)
    requires 1 <= previewLength < maxLength
    ensures var r := Truncate(value, previewLength, maxLength);
      (|value| <= maxLength ==> r == value) &&
      (|value| > maxLength ==> |r| == previewLength + 3 && r == value[..previewLength] + "...") &&
      Truncate(r, previewLength, maxLength) == r
  {
    var r := Truncate(value, previewLength, maxLength);
    if |value| > maxLength {
      assert Take(value, previewLength) == value[..previewLength];
      if |r| > maxLength {
        assert Take(r, previewLength) == value[..previewLength];
      }
    }
  }

  /** The lines `lines` with `d` more spaces in front of each. */
  function Indented(d: int, lines: seq<string>): (r: seq<string>)
    ensures |r| == |lines| && forall k :: 0 <= k < |lines| ==> r[k] == Spaces(d) + lines[k]
  {
    seq(|lines|, k requires 0 <= k < |lines| => Spaces(d) + lines[k])
  }

  lemma {:induction false} IndentedAppend(d: int, a: seq<string>, b: seq<string>)
    ensures Indented(d, a + b) == Indented(d, a) + Indented(d, b)
  {
  }

  lemma {:induction false} SpacesAdd(level: nat, d: nat)
    ensures Spaces(level + d) == Spaces(d) + Spaces(level)
  {
  }

  /** One line of three parts, indented `d` deeper. */
  lemma {:induction false} LineShift(level: nat, d: nat, x: string, y: string)
    ensures [Spaces(level + d) + x + y] == Indented(d, [Spaces(level) + x + y])
  {
    SpacesAdd(level, d);
    assert Spaces(d) + Spaces(level) + x + y == Spaces(d) + (Spaces(level) + x + y);
  }

  /** One line of four parts, indented `d` deeper. */
  lemma {:induction false} LineShift4(level: nat, d: nat, w: string, x: string, y: string)
    ensures [Spaces(level + d) + w + x + y] == Indented(d, [Spaces(level) + w + x + y])
  {
    SpacesAdd(level, d);
    assert Spaces(d) + Spaces(level) + w + x + y == Spaces(d) + (Spaces(level) + w + x + y);
  }

  /** One line of five parts, indented `d` deeper. */
  lemma {:induction false} LineShift5(level: nat, d: nat, v: string, w: string, x: string, y: string)
    ensures [Spaces(level + d) + v + w + x + y] == Indented(d, [Spaces(level) + v + w + x + y])
  {
    SpacesAdd(level, d);
    assert Spaces(d) + Spaces(level) + v + w + x + y == Spaces(d) + (Spaces(level) + v + w + x + y);
  }

  /** Indentation is uniform: formatting at a deeper level yields the same lines with
      the extra spaces in front. */
  lemma {:induction false} LinesShift(o: Options, obj: Json, level: nat, d: nat)
    requires o.indentSize >= 0
    ensures Lines(o, obj, level + d) == Indented(d, Lines(o, obj, level))
    decreases obj, 1, 0, 0
  {
    if obj.JNull? {
      LineShift(level, d, o.nullPlaceholder, "\n");
    } else if IsEmptyContainer(obj) {
      LineShift(level, d, o.emptyPlaceholder, "\n");
    } else if !IsContainer(obj) {
      LineShift(level, d, Str(obj), "\n");
    } else if obj.JArr? {
      ItemLinesShift(o, obj, 0, level, d);
    } else {
      FieldLinesShift(o, obj, 0, level, d);
    }
  }

  lemma {:induction false} ItemLinesShift(o: Options, list: Json, i: nat, level: nat, d: nat)
    requires o.indentSize >= 0 && list.JArr? && i <= |list.items|
    ensures ItemLines(o, list, i, level + d) == Indented(d, ItemLines(o, list, i, level))
    decreases list, 0, |list.items| - i, 1
  {
    if i < |list.items| {
      ItemEntryShift(o, list, i, level, d);
      ItemLinesShift(o, list, i + 1, level, d);
      IndentedAppend(d, ItemEntry(o, list, i, level), ItemLines(o, list, i + 1, level));
    }
  }

  lemma {:induction false} ItemEntryShift(o: Options, list: Json, i: nat, level: nat, d: nat)
    requires o.indentSize >= 0 && list.JArr? && i < |list.items|
    ensures ItemEntry(o, list, i, level + d) == Indented(d, ItemEntry(o, list, i, level))
    decreases list, 0, |list.items| - i, 0, 2
  {
    var item := list.items[i];
    var prefix := if o.showListIndices then IntText(i) + ": " else "";
    if item.JNull? {
      LineShift4(level, d, prefix, o.nullPlaceholder, "\n");
    } else if IsContainer(item) {
      ItemContainerShift(o, list, i, level, d);
    } else {
      LineShift4(level, d, prefix, Truncate(Str(item), o.previewLength, o.maxLength), "\n");
    }
  }

  lemma {:induction false} ItemContainerShift(o: Options, list: Json, i: nat, level: nat, d: nat)
    requires o.indentSize >= 0 && list.JArr? && i < |list.items| && IsContainer(list.items[i])
    ensures ItemEntry(o, list, i, level + d) == Indented(d, ItemEntry(o, list, i, level))
    decreases list, 0, |list.items| - i, 0, 1
  {
    var sp := Spaces(d);
    SpacesAdd(level, d);
    var header := if o.showListIndices then [Spaces(level) + IntText(i) + ":\n"] else [];
    var header' := if o.showListIndices then [Spaces(level + d) + IntText(i) + ":\n"] else [];
    assert sp + Spaces(level) + IntText(i) + ":\n" == sp + (Spaces(level) + IntText(i) + ":\n");
    assert header' == Indented(d, header);
    ContainerBodyShift(o, list, i, level, d);
    IndentedAppend(d, header, ContainerBody(o, list.items[i], level));
  }

  /** The lines under a nested container's header. */
  function ContainerBody(o: Options, item: Json, level: int): seq<string>
    requires IsContainer(item)
    decreases item, 2
  {
    if IsEmptyContainer(item) then [Spaces(level + o.indentSize) + o.emptyPlaceholder + "\n"]
    else Lines(o, item, level + o.indentSize)
  }

  lemma {:induction false} ContainerBodyShift(o: Options, list: Json, i: nat, level: nat, d: nat)
    requires o.indentSize >= 0 && list.JArr? && i < |list.items| && IsContainer(list.items[i])
    ensures ContainerBody(o, list.items[i], level + d) == Indented(d, ContainerBody(o, list.items[i], level))
    decreases list, 0, |list.items| - i, 0, 0
  {
    var item := list.items[i];
    SpacesAdd(level + o.indentSize, d);
    assert level + d + o.indentSize == (level + o.indentSize) + d;
    if IsEmptyContainer(item) {
      assert Spaces(d) + Spaces(level + o.indentSize) + o.emptyPlaceholder + "\n" ==
        Spaces(d) + (Spaces(level + o.indentSize) + o.emptyPlaceholder + "\n");
    } else {
      LinesShift(o, item, level + o.indentSize, d);
    }
  }

  lemma {:induction false} FieldLinesShift(o: Options, dict: Json, i: nat, level: nat, d: nat)
    requires o.indentSize >= 0 && dict.JObj? && i <= |dict.fields|
    ensures FieldLines(o, dict, i, level + d) == Indented(d, FieldLines(o, dict, i, level))
    decreases dict, 0, |dict.fields| - i, 1
  {
    if i < |dict.fields| {
      FieldEntryShift(o, dict, i, level, d);
      FieldLinesShift(o, dict, i + 1, level, d);
      IndentedAppend(d, FieldEntry(o, dict, i, level), FieldLines(o, dict, i + 1, level));
    }
  }

  lemma {:induction false} FieldEntryShift(o: Options, dict: Json, i: nat, level: nat, d: nat)
    requires o.indentSize >= 0 && dict.JObj? && i < |dict.fields|
    ensures FieldEntry(o, dict, i, level + d) == Indented(d, FieldEntry(o, dict, i, level))
    decreases dict, 0, |dict.fields| - i, 0, 1
  {
    var key, value := dict.fields[i].0, dict.fields[i].1;
    if value.JNull? {
      LineShift5(level, d, key, ": ", o.nullPlaceholder, "\n");
    } else if IsEmptyContainer(value) {
      LineShift5(level, d, key, ": ", o.emptyPlaceholder, "\n");
    } else if IsContainer(value) {
      FieldContainerShift(o, dict, i, level, d);
    } else {
      LineShift5(level, d, key, ": ", Truncate(Str(value), o.previewLength, o.maxLength), "\n");
    }
  }

  lemma {:induction false} FieldContainerShift(o: Options, dict: Json, i: nat, level: nat, d: nat)
    requires o.indentSize >= 0 && dict.JObj? && i < |dict.fields|
    requires IsContainer(dict.fields[i].1) && !IsEmptyContainer(dict.fields[i].1)
    ensures FieldEntry(o, dict, i, level + d) == Indented(d, FieldEntry(o, dict, i, level))
    decreases dict, 0, |dict.fields| - i, 0, 0
  {
    var key, value := dict.fields[i].0, dict.fields[i].1;
    assert value < dict.fields[i] && dict.fields[i] in dict.fields;
    SpacesAdd(level, d);
    SpacesAdd(level + o.indentSize, d);
    assert level + d + o.indentSize == (level + o.indentSize) + d;
    assert Spaces(d) + Spaces(level) + key + ":\n" == Spaces(d) + (Spaces(level) + key + ":\n");
    LinesShift(o, value, level + o.indentSize, d);
    IndentedAppend(d, [Spaces(level) + key + ":\n"], Lines(o, value, level + o.indentSize));
  }

  /** Every line of a formatted document at `level` starts with `level` spaces. */
  lemma {:induction false} LinesIndented(o: Options, obj: Json, level: nat)
    requires o.indentSize >= 0
    ensures forall k :: 0 <= k < |Lines(o, obj, level)| ==> Spaces(level) <= Lines(o, obj, level)[k]
  {
    LinesShift(o, obj, 0, level);
  }

  /** Each yielded string is one line: it ends with a line feed. */
  predicate Terminated(lines: seq<string>)
  {
    forall k :: 0 <= k < |lines| ==> lines[k] != [] && lines[k][|lines[k]| - 1] == '\n'
  }

  lemma {:induction false} TerminatedLine(head: string)
    ensures Terminated([head + "\n"])
  {
    var line := head + "\n";
    assert line[|line| - 1] == '\n';
  }

  lemma {:induction false} LinesTerminated(o: Options, obj: Json, level: int)
    ensures Terminated(Lines(o, obj, level))
    decreases obj, 1, 0, 0
  {
    var indent := Spaces(level);
    if obj.JNull? {
      TerminatedLine(indent + o.nullPlaceholder);
    } else if IsEmptyContainer(obj) {
      TerminatedLine(indent + o.emptyPlaceholder);
    } else if obj.JArr? {
      ItemLinesTerminated(o, obj, 0, level);
    } else if obj.JObj? {
      FieldLinesTerminated(o, obj, 0, level);
    } else {
      TerminatedLine(indent + Str(obj));
    }
  }

  lemma {:induction false} ItemLinesTerminated(o: Options, list: Json, i: nat, level: int)
    requires list.JArr? && i <= |list.items|
    ensures Terminated(ItemLines(o, list, i, level))
    decreases list, 0, |list.items| - i, 1
  {
    if i < |list.items| {
      ItemEntryTerminated(o, list, i, level);
      ItemLinesTerminated(o, list, i + 1, level);
      TerminatedConcat(ItemEntry(o, list, i, level), ItemLines(o, list, i + 1, level));
    }
  }

  lemma {:induction false} ItemEntryTerminated(o: Options, list: Json, i: nat, level: int)
    requires list.JArr? && i < |list.items|
    ensures Terminated(ItemEntry(o, list, i, level))
    decreases list, 0, |list.items| - i, 0
  {
    var item := list.items[i];
    var indent := Spaces(level);
    var prefix := if o.showListIndices then IntText(i) + ": " else "";
    if item.JNull? {
      TerminatedLine(indent + prefix + o.nullPlaceholder);
    } else if IsContainer(item) {
      TerminatedLine(indent + IntText(i) + ":");
      if IsEmptyContainer(item) {
        TerminatedLine(Spaces(level + o.indentSize) + o.emptyPlaceholder);
      } else {
        LinesTerminated(o, item, level + o.indentSize);
      }
      TerminatedConcat(if o.showListIndices then [indent + IntText(i) + ":\n"] else [], ContainerBody(o, item, level));
    } else {
      TerminatedLine(indent + prefix + Truncate(Str(item), o.previewLength, o.maxLength));
    }
  }

  lemma {:induction false} TerminatedConcat(a: seq<string>, b: seq<string>)
    requires Terminated(a) && Terminated(b)
    ensures Terminated(a + b)
  {
    forall k | 0 <= k < |a + b| ensures (a + b)[k] != [] && (a + b)[k][|(a + b)[k]| - 1] == '\n' {
      if k >= |a| {
        assert (a + b)[k] == b[k - |a|];
      }
    }
  }

  lemma {:induction false} FieldLinesTerminated(o: Options, dict: Json, i: nat, level: int)
    requires dict.JObj? && i <= |dict.fields|
    ensures Terminated(FieldLines(o, dict, i, level))
    decreases dict, 0, |dict.fields| - i, 1
  {
    if i < |dict.fields| {
      var key, value := dict.fields[i].0, dict.fields[i].1;
      assert value < dict.fields[i] && dict.fields[i] in dict.fields;
      var indent := Spaces(level);
      if value.JNull? {
        TerminatedLine(indent + key + ": " + o.nullPlaceholder);
      } else if IsEmptyContainer(value) {
        TerminatedLine(indent + key + ": " + o.emptyPlaceholder);
      } else if IsContainer(value) {
        TerminatedLine(indent + key + ":");
        LinesTerminated(o, value, level + o.indentSize);
      } else {
        TerminatedLine(indent + key + ": " + Truncate(Str(value), o.previewLength, o.maxLength));
      }
      FieldLinesTerminated(o, dict, i + 1, level);
    }
  }

  predicate IsScalar(v: Json)
  {
    !v.JNull? && !IsContainer(v)
  }

  /** The line of one scalar dict entry. */
  function EntryLine(o: Options, level: int, key: string, value: Json): string
  {
    Spaces(level) + key + ": " + Truncate(Str(value), o.previewLength, o.maxLength) + "\n"
  }

  /** One `EntryLine` per entry from `i` on. */
  function EntryLines(o: Options, dict: Json, i: nat, level: int): seq<string>
    requires dict.JObj? && i <= |dict.fields|
  {
    Tabulate(EntryLineAt(o, dict, level), i, |dict.fields|)
  }

  /** The line of entry `k` of a dict, as a function of `k`. */
  function EntryLineAt(o: Options, dict: Json, level: int): nat --> string
    requires dict.JObj?
  {
    (k: nat) requires k < |dict.fields| => EntryLine(o, level, dict.fields[k].0, dict.fields[k].1)
  }

  /** A dict of scalars is one `key: value` line per entry, in insertion order. */
  lemma {:induction false} FlatDictLines(o: Options, dict: Json, i: nat, level: int)
    requires dict.JObj? && i <= |dict.fields|
    requires forall k :: 0 <= k < |dict.fields| ==> IsScalar(dict.fields[k].1)
    ensures |FieldLines(o, dict, i, level)| == |dict.fields| - i
    ensures forall k :: 0 <= k < |dict.fields| - i ==>
      FieldLines(o, dict, i, level)[k] == EntryLine(o, level, dict.fields[i + k].0, dict.fields[i + k].1)
  {
    ScalarFieldLines(o, dict, i, level);
    EntryLinesAt(o, dict, i, level);
  }

  /** `EntryLines`, position by position. */
  lemma {:induction false} EntryLinesAt(o: Options, dict: Json, i: nat, level: int)
    requires dict.JObj? && i <= |dict.fields|
    ensures |EntryLines(o, dict, i, level)| == |dict.fields| - i
    ensures forall k :: 0 <= k < |dict.fields| - i ==>
      EntryLines(o, dict, i, level)[k] == EntryLine(o, level, dict.fields[i + k].0, dict.fields[i + k].1)
  {
    var lines := EntryLines(o, dict, i, level);
    TabulateAt(EntryLineAt(o, dict, level), i, |dict.fields|);
    forall k | 0 <= k < |dict.fields| - i
      ensures lines[k] == EntryLine(o, level, dict.fields[i + k].0, dict.fields[i + k].1)
    {
      assert lines[k] == EntryLineAt(o, dict, level)(i + k);
    }
  }

  /** For a dict of scalars the lines from entry `i` on are the `EntryLines`. */
  lemma {:induction false} ScalarFieldLines(o: Options, dict: Json, i: nat, level: int)
    requires dict.JObj? && i <= |dict.fields|
    requires forall k :: 0 <= k < |dict.fields| ==> IsScalar(dict.fields[k].1)
    ensures FieldLines(o, dict, i, level) == EntryLines(o, dict, i, level)
    decreases |dict.fields| - i
  {
    if i < |dict.fields| {
      ScalarFieldLines(o, dict, i + 1, level);
      ScalarFieldEntry(o, dict, i, level);
    }
  }

  /** A scalar entry is the one line `EntryLine` gives. */
  lemma {:induction false} ScalarFieldEntry(o: Options, dict: Json, i: nat, level: int)
    requires dict.JObj? && i < |dict.fields| && IsScalar(dict.fields[i].1)
    ensures FieldEntry(o, dict, i, level) == [EntryLine(o, level, dict.fields[i].0, dict.fields[i].1)]
  {
    var t := Truncate(Str(dict.fields[i].1), o.previewLength, o.maxLength);
    assert Spaces(level) + dict.fields[i].0 + ": " + t + "\n" == EntryLine(o, level, dict.fields[i].0, dict.fields[i].1);
  }

  /** The line of one scalar list item at index `i`. */
  function ItemLine(o: Options, level: int, i: nat, item: Json): string
  {
    Spaces(level) + (if o.showListIndices then IntText(i) + ": " else "") +
    Truncate(Str(item), o.previewLength, o.maxLength) + "\n"
  }

  /** One `ItemLine` per item from `i` on. */
  function ScalarItemLines(o: Options, list: Json, i: nat, level: int): seq<string>
    requires list.JArr? && i <= |list.items|
  {
    Tabulate(ItemLineAt(o, list, level), i, |list.items|)
  }

  /** The line of item `k` of a list, as a function of `k`. */
  function ItemLineAt(o: Options, list: Json, level: int): nat --> string
    requires list.JArr?
  {
    (k: nat) requires k < |list.items| => ItemLine(o, level, k, list.items[k])
  }

  /** A list of scalars is one line per item, prefixed by its index when indices are
      shown. */
  lemma {:induction false} FlatListLines(o: Options, list: Json, i: nat, level: int)
    requires list.JArr? && i <= |list.items|
    requires forall k :: 0 <= k < |list.items| ==> IsScalar(list.items[k])
    ensures |ItemLines(o, list, i, level)| == |list.items| - i
    ensures forall k :: 0 <= k < |list.items| - i ==>
      ItemLines(o, list, i, level)[k] == ItemLine(o, level, i + k, list.items[i + k])
  {
    ScalarListLines(o, list, i, level);
    ScalarItemLinesAt(o, list, i, level);
  }

  /** `ScalarItemLines`, position by position. */
  lemma {:induction false} ScalarItemLinesAt(o: Options, list: Json, i: nat, level: int)
    requires list.JArr? && i <= |list.items|
    ensures |ScalarItemLines(o, list, i, level)| == |list.items| - i
    ensures forall k :: 0 <= k < |list.items| - i ==>
      ScalarItemLines(o, list, i, level)[k] == ItemLine(o, level, i + k, list.items[i + k])
  {
    var lines := ScalarItemLines(o, list, i, level);
    TabulateAt(ItemLineAt(o, list, level), i, |list.items|);
    forall k | 0 <= k < |list.items| - i
      ensures lines[k] == ItemLine(o, level, i + k, list.items[i + k])
    {
      assert lines[k] == ItemLineAt(o, list, level)(i + k);
    }
  }

  /** For a list of scalars the lines from item `i` on are the `ScalarItemLines`. */
  lemma {:induction false} ScalarListLines(o: Options, list: Json, i: nat, level: int)
    requires list.JArr? && i <= |list.items|
    requires forall k :: 0 <= k < |list.items| ==> IsScalar(list.items[k])
    ensures ItemLines(o, list, i, level) == ScalarItemLines(o, list, i, level)
    decreases |list.items| - i
  {
    if i < |list.items| {
      ScalarListLines(o, list, i + 1, level);
      ScalarItemEntry(o, list, i, level);
    }
  }

  /** A scalar item is the one line `ItemLine` gives. */
  lemma {:induction false} ScalarItemEntry(o: Options, list: Json, i: nat, level: int)
    requires list.JArr? && i < |list.items| && IsScalar(list.items[i])
    ensures ItemEntry(o, list, i, level) == [ItemLine(o, level, i, list.items[i])]
  {
    var prefix := if o.showListIndices then IntText(i) + ": " else "";
    var t := Truncate(Str(list.items[i]), o.previewLength, o.maxLength);
    assert Spaces(level) + prefix + t + "\n" == ItemLine(o, level, i, list.items[i]);
  }

  /** The documents the unit tests expect for small inputs with the default options. */
  lemma {:induction false} DictDocument()
    ensures FormatJsonToDocument(JObj([("a", JNum(1)), ("b", JNum(2))]), 0, Defaults) == Success("a: 1\nb: 2\n")
  {
    var dict := JObj([("a", JNum(1)), ("b", JNum(2))]);
    FlatDictLines(Defaults, dict, 0, 0);
    assert EntryLine(Defaults, 0, "a", JNum(1)) == "a: 1\n";
    assert EntryLine(Defaults, 0, "b", JNum(2)) == "b: 2\n";
    assert Lines(Defaults, dict, 0) == ["a: 1\n", "b: 2\n"];
    assert Join("", ["a: 1\n", "b: 2\n"]) == "a: 1\n" + "" + "b: 2\n" == "a: 1\nb: 2\n";
  }

  lemma {:induction false} ListDocument()
    ensures FormatJsonToDocument(JArr([JNum(1), JNum(2), JNum(3)]), 0, Defaults) == Success("0: 1\n1: 2\n2: 3\n")
  {
    var lines := ["0: 1\n", "1: 2\n", "2: 3\n"];
    ListDocumentLines();
    assert lines[1..][1..] == ["2: 3\n"];
    assert Join("", lines) == "0: 1\n" + "" + ("1: 2\n" + "" + "2: 3\n") == "0: 1\n1: 2\n2: 3\n";
  }

  lemma {:induction false} ListDocumentLines()
    ensures Lines(Defaults, JArr([JNum(1), JNum(2), JNum(3)]), 0) == ["0: 1\n", "1: 2\n", "2: 3\n"]
  {
    var list := JArr([JNum(1), JNum(2), JNum(3)]);
    FlatListLines(Defaults, list, 0, 0);
    assert ItemLine(Defaults, 0, 0, JNum(1)) == "0: 1\n";
    assert ItemLine(Defaults, 0, 1, JNum(2)) == "1: 2\n";
    assert ItemLine(Defaults, 0, 2, JNum(3)) == "2: 3\n";
  }

  lemma {:induction false} NoneDocuments()
    ensures FormatJsonToDocument(JNull, 0, Defaults) == Success("null\n")
    ensures FormatJsonToDocument(JObj([("key", JNull)]), 0, Defaults) == Success("key: null\n")
    ensures FormatJsonToDocument(JArr([JNull, JNull]), 0, Defaults) == Success("0: null\n1: null\n")
  {
    assert Spaces(0) == "";
    assert "" + "null" + "\n" == "null\n";
    var dict := JObj([("key", JNull)]);
    assert "" + "key" + ": " + "null" + "\n" == "key: null\n";
    assert FieldEntry(Defaults, dict, 0, 0) == ["key: null\n"];
    var list := JArr([JNull, JNull]);
    assert IntText(0) == "0" && IntText(1) == "1";
    assert "" + ("0" + ": ") + "null" + "\n" == "0: null\n";
    assert "" + ("1" + ": ") + "null" + "\n" == "1: null\n";
    assert ItemEntry(Defaults, list, 0, 0) == ["0: null\n"];
    assert ItemEntry(Defaults, list, 1, 0) == ["1: null\n"];
    assert Lines(Defaults, list, 0) == ["0: null\n", "1: null\n"];
    assert Join("", ["0: null\n", "1: null\n"]) == "0: null\n" + "" + "1: null\n" == "0: null\n1: null\n";
  }

  lemma {:induction false} EmptyDocuments()
    ensures FormatJsonToDocument(JObj([]), 0, Defaults) == Success("[empty]\n")
    ensures FormatJsonToDocument(JArr([]), 0, Defaults) == Success("[empty]\n")
    ensures FormatJsonToDocument(JObj([("empty", JArr([]))]), 0, Defaults) == Success("empty: [empty]\n")
  {
    assert Spaces(0) == "";
    assert "" + "[empty]" + "\n" == "[empty]\n";
    var dict := JObj([("empty", JArr([]))]);
    assert "" + "empty" + ": " + "[empty]" + "\n" == "empty: [empty]\n";
    assert FieldEntry(Defaults, dict, 0, 0) == ["empty: [empty]\n"];
  }
}
