/** The column builder: `initializeColumns` turns the comma-separated field
    list into one datatable column descriptor per field, in order, typed by a
    fixed and case-sensitive table of field names. */
module Columns {
  import opened Strings
  import opened Labels

  /** The datatable cell types the builder uses ('text', 'currency', 'date',
      'picklist'). */
  datatype ColumnType = Text | Currency | Date | Picklist {
    function Name(): string {
      match this
      case Text => "text"
      case Currency => "currency"
      case Date => "date"
      case Picklist => "picklist"
    }
  }

  /** `{ fieldName: ... }`: a reference to a property of the row being shown. */
  datatype FieldRef = FieldRef(fieldName: string)

  /** The column's `typeAttributes`: the empty object, or the picklist's
      placeholder, options and value. */
  datatype TypeAttributes =
    | NoAttributes
    | PicklistAttributes(placeholder: string, options: FieldRef, value: FieldRef)

  /** One datatable column descriptor (`label` and `type` are reserved words in Dafny,
      hence `displayLabel` and `columnType`). */
  datatype Column = Column(
    displayLabel: string,
    fieldName: string,
    columnType: ColumnType,
    editable: bool,
    typeAttributes: TypeAttributes)

  /** The row property the picklist column reads its options from; the row
      merge fills it in on every fetched row. */
  const StageNameOptionsField := "stageNameOptions"

  /** The component's default field list. */
  const DefaultCustomFields := "Name,StageName,Amount,CloseDate"

  const StageNameAttributes :=
    PicklistAttributes("Choose Stage", FieldRef(StageNameOptionsField), FieldRef("StageName"))

  /** The descriptor of one trimmed field name: the three special names get
      their own type, every other name is plain text; every column is
      editable and labelled by `FormatLabel`. */
  function ColumnFor(field: string): (c: Column)
    ensures c.fieldName == field && c.displayLabel == FormatLabel(field) && c.editable
    ensures c.columnType == Currency <==> field == "Amount"
    ensures c.columnType == Date <==> field == "CloseDate"
    ensures c.columnType == Picklist <==> field == "StageName"
    ensures c.columnType == Text <==> field != "Amount" && field != "CloseDate" && field != "StageName"
    ensures c.typeAttributes != NoAttributes <==> c.columnType == Picklist
    ensures c.columnType == Picklist ==> c.typeAttributes == StageNameAttributes
  {
    var t0, attrs0 := Text, NoAttributes;
    var t1 := if field == "Amount" then Currency else t0;
    var t2 := if field == "CloseDate" then Date else t1;
    var t3 := if field == "StageName" then Picklist else t2;
    var attrs := if field == "StageName" then StageNameAttributes else attrs0;
    Column(FormatLabel(field), field, t3, true, attrs)
  }

  /** The trimmed pieces of the comma-separated field list. */
  function Fields(customFields: string): (fields: seq<string>)
    ensures |fields| == Count(customFields, ',') + 1
    ensures forall i :: 0 <= i < |fields| ==> fields[i] == Trim(Split(customFields, ',')[i])
  {
    var pieces := Split(customFields, ',');
    seq(|pieces|, i requires 0 <= i < |pieces| => Trim(pieces[i]))
  }

  /** `initializeColumns()`: one descriptor per comma-separated piece (one
      more than the number of commas), in input order, each for the trimmed
      piece. */
  function InitializeColumns(customFields: string): (columns: seq<Column>)
    ensures |columns| == Count(customFields, ',') + 1
    ensures forall i :: 0 <= i < |columns| ==>
      && columns[i].fieldName == Trim(Split(customFields, ',')[i])
      && columns[i] == ColumnFor(columns[i].fieldName)
  {
    var fields := Fields(customFields);
    seq(|fields|, i requires 0 <= i < |fields| => ColumnFor(fields[i]))
  }

  function FieldNames(columns: seq<Column>): (names: seq<string>)
    ensures |names| == |columns|
    ensures forall i :: 0 <= i < |columns| ==> names[i] == columns[i].fieldName
  {
    seq(|columns|, i requires 0 <= i < |columns| => columns[i].fieldName)
  }

  /** For a field list without whitespace the columns' field names are
      exactly the comma-separated pieces. */
  lemma FieldNamesAreSplit(customFields: string)
    requires NoWhitespace(customFields)
    ensures FieldNames(InitializeColumns(customFields)) == Split(customFields, ',')
  {
    var pieces := Split(customFields, ',');
    var names := FieldNames(InitializeColumns(customFields));
    forall i | 0 <= i < |pieces| ensures names[i] == pieces[i] {
      PieceHasNoWhitespace(customFields, i);
      TrimUnchanged(pieces[i]);
    }
  }

  /** A field list without whitespace comes back from its columns: joining
      their field names with commas reproduces it. */
  lemma FieldNamesRoundTrip(customFields: string)
    requires NoWhitespace(customFields)
    ensures Join(FieldNames(InitializeColumns(customFields)), ',') == customFields
  {
    FieldNamesAreSplit(customFields);
    JoinSplit(customFields, ',');
  }

  /** Every piece of a whitespace-free string is whitespace-free. */
  lemma {:induction false} PieceHasNoWhitespace(s: string, i: nat)
    requires NoWhitespace(s) && i < |Split(s, ',')|
    ensures NoWhitespace(Split(s, ',')[i])
  {
    if s != [] {
      var rest := Split(s[1..], ',');
      assert NoWhitespace(s[1..]) by {
        forall k | 0 <= k < |s| - 1 ensures !IsWhitespace(s[1..][k]) {
          assert s[1..][k] == s[k + 1];
        }
      }
      if s[0] == ',' {
        if i > 0 {
          PieceHasNoWhitespace(s[1..], i - 1);
        }
      } else {
        PieceHasNoWhitespace(s[1..], i);
        if i == 0 {
          var p := [s[0]] + rest[0];
          forall k | 0 <= k < |p| ensures !IsWhitespace(p[k]) {
            if k > 0 {
              assert p[k] == rest[0][k - 1];
            }
          }
        } else {
          assert Split(s, ',')[i] == rest[i];
        }
      }
    }
  }

  /** No field name of a column contains a comma. */
  lemma FieldNamesHaveNoComma(customFields: string)
    ensures forall c :: c in InitializeColumns(customFields) ==> ',' !in c.fieldName
  {
    var columns := InitializeColumns(customFields);
    var pieces := Split(customFields, ',');
    forall c | c in columns ensures ',' !in c.fieldName {
      var i :| 0 <= i < |columns| && columns[i] == c;
      assert pieces[i] in pieces;
      TrimAddsNothing(pieces[i], ',');
    }
  }

  /** An empty field list still yields one column: empty name, empty label,
      plain text. */
  lemma EmptyFieldList()
    ensures InitializeColumns("") == [Column("", "", Text, true, NoAttributes)]
  {
  }

  /** The other direction of the round trip: names without commas or
      whitespace, joined with commas, come back as the columns' field names. */
  lemma ColumnsOfJoin(names: seq<string>)
    requires |names| >= 1
    requires forall p :: p in names ==> ',' !in p && NoWhitespace(p)
    ensures FieldNames(InitializeColumns(Join(names, ','))) == names
  {
    JoinNoWhitespace(names);
    FieldNamesAreSplit(Join(names, ','));
    SplitJoin(names, ',');
  }

  /** The default field list is its four field names joined with commas. */
  lemma DefaultIsJoin()
    ensures Join(["Name", "StageName", "Amount", "CloseDate"], ',') == DefaultCustomFields
  {
    var names := ["Name", "StageName", "Amount", "CloseDate"];
    assert Join(names[3..], ',') == "CloseDate";
    assert Join(names[2..], ',') == "Amount" + [','] + "CloseDate";
    assert Join(names[1..], ',') == "StageName" + [','] + "Amount,CloseDate";
  }

  /** No default field name holds a comma or whitespace. */
  lemma DefaultNamesAreClean()
    ensures forall p :: p in ["Name", "StageName", "Amount", "CloseDate"] ==> ',' !in p && NoWhitespace(p)
  {
  }

  /** The default field list gives the columns `Name`, `StageName`, `Amount`
      and `CloseDate`, in that order. */
  lemma DefaultFieldNames(customFields: string)
    requires customFields == DefaultCustomFields
    ensures FieldNames(InitializeColumns(customFields)) == ["Name", "StageName", "Amount", "CloseDate"]
  {
    DefaultIsJoin();
    DefaultNamesAreClean();
    ColumnsOfJoin(["Name", "StageName", "Amount", "CloseDate"]);
  }

  /** Commas are not whitespace, so joining whitespace-free names with them
      gives a whitespace-free string. */
  lemma {:induction false} JoinNoWhitespace(names: seq<string>)
    requires forall p :: p in names ==> NoWhitespace(p)
    ensures NoWhitespace(Join(names, ','))
  {
    if |names| > 1 {
      forall p | p in names[1..] ensures NoWhitespace(p) {
        assert p in names;
      }
      JoinNoWhitespace(names[1..]);
      var head, tail := names[0] + [','], Join(names[1..], ',');
      assert names[0] in names;
      assert NoWhitespace(head) by {
        forall k | 0 <= k < |head| ensures !IsWhitespace(head[k]) {
          if k < |names[0]| {
            assert head[k] == names[0][k];
          }
        }
      }
      forall k | 0 <= k < |head + tail| ensures !IsWhitespace((head + tail)[k]) {
        if k < |head| {
          assert (head + tail)[k] == head[k];
        } else {
          assert (head + tail)[k] == tail[k - |head|];
        }
      }
    } else if |names| == 1 {
      assert names[0] in names;
    }
  }
}
