/** The conference query builder: `_formatFilters` validates the client's
    (field, operator, value) triples against two fixed tables and enforces
    that inequality operators name one field only; `_getQuery` then picks the
    sort order and turns `month` and `maxAttendees` values into integers. */
module QueryFilters {
  import opened Common
  import IntegerText

  /** The OPERATORS table: client operator name to datastore operator. */
  const Operators: map<string, string> :=
    map["EQ" := "=", "GT" := ">", "GTEQ" := ">=", "LT" := "<", "LTEQ" := "<=", "NE" := "!="]

  /** The FIELDS table: client field name to Conference property. */
  const Fields: map<string, string> :=
    map["CITY" := "city", "TOPIC" := "topics", "MONTH" := "month", "MAX_ATTENDEES" := "maxAttendees"]

  /** The property every query is finally ordered by. */
  const NameProperty := "name"

  /** The properties whose filter values are converted with `int()`. */
  const IntegerProperties: set<string> := {"month", "maxAttendees"}

  /** One ConferenceQueryForm as the client sent it; any part may be unset. */
  datatype RawFilter = RawFilter(field: Option<string>, operator: Option<string>, value: Option<string>)

  /** A filter after translation through the two tables. */
  datatype Filter = Filter(field: string, operator: string, value: Option<string>)

  /** A filter value as the datastore receives it. */
  datatype Value = Text(text: string) | Integer(number: int) | Null

  /** One node of the query's conjunction of filters. */
  datatype QueryFilter = QueryFilter(field: string, operator: string, value: Value)

  /** The query `_getQuery` builds: its sort keys, most significant first, and
      its filters. */
  datatype QueryPlan = QueryPlan(order: seq<string>, filters: seq<QueryFilter>)

  /** Both the field and the operator are in their tables. */
  predicate Known(f: RawFilter)
  {
    f.field.Some? && f.field.value in Fields && f.operator.Some? && f.operator.value in Operators
  }

  function Translate(f: RawFilter): Filter
    requires Known(f)
  {
    Filter(Fields[f.field.value], Operators[f.operator.value], f.value)
  }

  /** The Conference property a known filter constrains. */
  function PropertyOf(f: RawFilter): string
    requires Known(f)
  {
    Fields[f.field.value]
  }

  /** Every operator except "=" is an inequality. */
  predicate IsInequality(f: RawFilter)
  {
    Known(f) && Operators[f.operator.value] != "="
  }

  /** All inequality filters constrain one and the same property. */
  predicate SingleInequalityProperty(fs: seq<RawFilter>)
  {
    forall i, j :: 0 <= i < |fs| && 0 <= j < |fs| && IsInequality(fs[i]) && IsInequality(fs[j]) ==>
      PropertyOf(fs[i]) == PropertyOf(fs[j])
  }

  /** The filter lists `_formatFilters` accepts. */
  predicate Acceptable(fs: seq<RawFilter>)
  {
    (forall i :: 0 <= i < |fs| ==> Known(fs[i])) && SingleInequalityProperty(fs)
  }

  /** `fs[k]` is the first filter that makes the list unacceptable, and `e` is
      the failure it raises. */
  predicate RejectedAt(fs: seq<RawFilter>, k: int, e: Error)
  {
    && 0 <= k < |fs|
    && Acceptable(fs[..k])
    && if Known(fs[k]) then !Acceptable(fs[..k + 1]) && e == BadRequest(InequalityOnMultipleFields)
       else e == BadRequest(InvalidFieldOrOperator)
  }

  /** An acceptable list stays acceptable when cut short. */
  lemma AcceptablePrefix(fs: seq<RawFilter>, k: nat)
    requires Acceptable(fs) && k <= |fs|
    ensures Acceptable(fs[..k])
  {
    assert forall i :: 0 <= i < k ==> fs[..k][i] == fs[i];
  }

  /** `_formatFilters`: translate every filter, rejecting unknown fields or
      operators and inequalities on a second property; return the inequality
      property, if any, with the translated filters in input order. */
  method FormatFilters(filters: seq<RawFilter>) returns (r: Result<(Option<string>, seq<Filter>)>)
    ensures r.Success? <==> Acceptable(filters)
    ensures r.Failure? ==> exists k :: RejectedAt(filters, k, r.error)
    ensures r.Success? ==>
      var (inequality, formatted) := r.value;
      && |formatted| == |filters|
      && (forall i :: 0 <= i < |filters| ==> formatted[i] == Translate(filters[i]))
      && (inequality.None? <==> forall i :: 0 <= i < |filters| ==> !IsInequality(filters[i]))
      && (forall i :: 0 <= i < |filters| && IsInequality(filters[i]) ==>
            inequality == Some(PropertyOf(filters[i])))
  {
    var formatted: seq<Filter> := [];
    var inequality: Option<string> := None;
    var i := 0;
    while i < |filters|
      invariant 0 <= i <= |filters|
      invariant Acceptable(filters[..i])
      invariant |formatted| == i
      invariant forall j :: 0 <= j < i ==> formatted[j] == Translate(filters[j])
      invariant inequality.None? <==> forall j :: 0 <= j < i ==> !IsInequality(filters[j])
      invariant forall j :: 0 <= j < i && IsInequality(filters[j]) ==> inequality == Some(PropertyOf(filters[j]))
    {
      var f := filters[i];
      if !(f.field.Some? && f.field.value in Fields && f.operator.Some? && f.operator.value in Operators) {
        assert RejectedAt(filters, i, BadRequest(InvalidFieldOrOperator));
        NotAcceptableBeyond(filters, i + 1);
        return Failure(BadRequest(InvalidFieldOrOperator));
      }
      var filtr := Filter(Fields[f.field.value], Operators[f.operator.value], f.value);
      if filtr.operator != "=" {
        if inequality.Some? && inequality.value != filtr.field {
          var j :| 0 <= j < i && IsInequality(filters[j]);
          assert filters[..i + 1][j] == filters[j] && filters[..i + 1][i] == f;
          assert RejectedAt(filters, i, BadRequest(InequalityOnMultipleFields));
          NotAcceptableBeyond(filters, i + 1);
          return Failure(BadRequest(InequalityOnMultipleFields));
        }
        inequality := Some(filtr.field);
      }
      formatted := formatted + [filtr];
      i := i + 1;
      AcceptableExtend(filters, i);
    }
    assert filters[..i] == filters;
    return Success((inequality, formatted));
  }

  /** A list whose first `k` filters are not acceptable is not acceptable. */
  lemma NotAcceptableBeyond(fs: seq<RawFilter>, k: nat)
    requires k <= |fs| && !Acceptable(fs[..k])
    ensures !Acceptable(fs)
  {
    if Acceptable(fs) {
      AcceptablePrefix(fs, k);
    }
  }

  /** The loop step: the new filter is known and, if an inequality, names the
      property of every earlier inequality. */
  lemma AcceptableExtend(fs: seq<RawFilter>, k: nat)
    requires 0 < k <= |fs| && Acceptable(fs[..k - 1]) && Known(fs[k - 1])
    requires forall j :: 0 <= j < k - 1 && IsInequality(fs[j]) && IsInequality(fs[k - 1]) ==>
      PropertyOf(fs[j]) == PropertyOf(fs[k - 1])
    ensures Acceptable(fs[..k])
  {
    assert forall j :: 0 <= j < k - 1 ==> fs[..k][j] == fs[..k - 1][j];
  }

  /** The filter a translated filter becomes once `int()` has been applied to
      the value of a `month` or `maxAttendees` filter. */
  function Coerced(f: Filter): Option<QueryFilter>
  {
    if f.field in IntegerProperties then
      if f.value.Some? && IntegerText.ParseInt(f.value.value).Some? then
        Some(QueryFilter(f.field, f.operator, Integer(IntegerText.ParseInt(f.value.value).value)))
      else None
    else
      Some(QueryFilter(f.field, f.operator, if f.value.Some? then Text(f.value.value) else Null))
  }

  /** `_getQuery`: order by name alone when no filter is an inequality, else by
      the inequality property and then by name; apply every filter, with
      `month` and `maxAttendees` values converted by `int()`. */
  method GetQuery(filters: seq<RawFilter>) returns (r: Result<QueryPlan>)
    ensures !Acceptable(filters) ==> r.Failure? && exists k :: RejectedAt(filters, k, r.error)
    ensures Acceptable(filters) ==>
      (r.Success? <==> forall i :: 0 <= i < |filters| ==> Coerced(Translate(filters[i])).Some?)
    ensures Acceptable(filters) && r.Failure? ==> r.error == NotAnInteger
    ensures r.Success? ==>
      && (r.value.order == [NameProperty] <==> forall i :: 0 <= i < |filters| ==> !IsInequality(filters[i]))
      && (forall i :: 0 <= i < |filters| && IsInequality(filters[i]) ==>
            r.value.order == [PropertyOf(filters[i]), NameProperty])
      && |r.value.filters| == |filters|
      && (forall i :: 0 <= i < |filters| ==> Some(r.value.filters[i]) == Coerced(Translate(filters[i])))
  {
    var formattedResult := FormatFilters(filters);
    if formattedResult.Failure? {
      return Failure(formattedResult.error);
    }
    var (inequality, formatted) := formattedResult.value;
    var order: seq<string>;
    if inequality.None? {
      order := [NameProperty];
    } else {
      order := [inequality.value, NameProperty];
    }
    var applied: seq<QueryFilter> := [];
    var i := 0;
    while i < |formatted|
      invariant 0 <= i <= |formatted|
      invariant |applied| == i
      invariant forall j :: 0 <= j < i ==> Some(applied[j]) == Coerced(formatted[j])
    {
      var filtr := formatted[i];
      var value: Value;
      if filtr.field in IntegerProperties {
        if filtr.value.None? {
          return Failure(NotAnInteger);
        }
        var n := IntegerText.ParseInt(filtr.value.value);
        if n.None? {
          return Failure(NotAnInteger);
        }
        value := Integer(n.value);
      } else {
        value := if filtr.value.Some? then Text(filtr.value.value) else Null;
      }
      applied := applied + [QueryFilter(filtr.field, filtr.operator, value)];
      i := i + 1;
    }
    return Success(QueryPlan(order, applied));
  }

  /** Equality filters never take part in the single-inequality rule: adding
      one anywhere neither makes an acceptable list unacceptable nor the
      reverse. */
  lemma EqualityFilterIrrelevant(a: seq<RawFilter>, e: RawFilter, b: seq<RawFilter>)
    requires Known(e) && !IsInequality(e)
    ensures Acceptable(a + [e] + b) <==> Acceptable(a + b)
  {
    if Acceptable(a + [e] + b) {
      DropEqualityFilter(a, e, b);
    }
    if Acceptable(a + b) {
      InsertEqualityFilter(a, e, b);
    }
  }

  /** Removing an equality filter keeps a list acceptable. */
  lemma DropEqualityFilter(a: seq<RawFilter>, e: RawFilter, b: seq<RawFilter>)
    requires Acceptable(a + [e] + b)
    ensures Acceptable(a + b)
  {
    var with, without := a + [e] + b, a + b;
    forall i | 0 <= i < |without| ensures without[i] == with[if i < |a| then i else i + 1] {
    }
  }

  /** Inserting a known equality filter keeps a list acceptable. */
  lemma InsertEqualityFilter(a: seq<RawFilter>, e: RawFilter, b: seq<RawFilter>)
    requires Known(e) && !IsInequality(e)
    requires Acceptable(a + b)
    ensures Acceptable(a + [e] + b)
  {
    var with, without := a + [e] + b, a + b;
    forall i | 0 <= i < |with| && i != |a| ensures with[i] == without[if i < |a| then i else i - 1] {
    }
    assert with[|a|] == e;
    forall i, j | 0 <= i < |with| && 0 <= j < |with| && IsInequality(with[i]) && IsInequality(with[j])
      ensures PropertyOf(with[i]) == PropertyOf(with[j])
    {
      var i' := if i < |a| then i else i - 1;
      var j' := if j < |a| then j else j - 1;
      assert with[i] == without[i'] && with[j] == without[j'];
    }
  }
}
