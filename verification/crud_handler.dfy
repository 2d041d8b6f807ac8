/**
 * The pure data helpers of the admin panel's CRUD screen: the section-to-endpoint
 * mapping, the fallback dummy data, deletion by id, the free-text search filter and
 * the column list of the table.
 */
module CrudHandler {
  import opened Wrappers
  import opened Text
  import opened Seqs

  /** A field value of a data item, as far as `String(value)` tells them apart. */
  datatype Value = Num(n: int) | Str(s: string) | Bool(b: bool) | Null | Undefined

  datatype Field = Field(key: string, value: Value)

  /**
   * A row of the table: its fields in insertion order. A JavaScript object holds each key at
   * most once; rows with a repeated key are outside the model.
   */
  datatype Item = Item(fields: seq<Field>)

  /** The nine sections of the admin panel, in the order the switch lists them. */
  const Sections: seq<string> :=
    ["Admins", "Users", "Reviews", "Orders", "Products", "ProductCategories", "Categories", "Inventory", "Variants"]

  const UnknownUrl := "/api/unknown"

  /** `changeUrlBasedOnInput`: the REST collection behind a section name. */
  function SectionUrl(section: string): (url: string)
    ensures |url| > 5 && url[..5] == "/api/"
    ensures url == UnknownUrl <==> section !in Sections
  {
    if section == "Admins" then "/api/admins"
    else if section == "Users" then "/api/users"
    else if section == "Reviews" then "/api/reviews"
    else if section == "Orders" then "/api/orders"
    else if section == "Products" then "/api/products"
    else if section == "ProductCategories" then "/api/product-categories"
    else if section == "Categories" then "/api/categories"
    else if section == "Inventory" then "/api/inventory"
    else if section == "Variants" then "/api/variants"
    else UnknownUrl
  }

  /** Different sections never share an endpoint. */
  lemma SectionUrlInjective(a: string, b: string)
    requires a in Sections && b in Sections && a != b
    ensures SectionUrl(a) != SectionUrl(b)
  {
  }

  /**
   * `generateDummyData`: the fixture rows of a known section (their literal contents are a
   * parameter here), and the empty list for any other section name.
   */
  function DummyData(section: string, fixtures: string -> seq<Item>): (rows: seq<Item>)
    ensures section !in Sections ==> rows == []
    ensures section in Sections ==> rows == fixtures(section)
  {
    if section in Sections then fixtures(section) else []
  }

  /** `item[key]`: the value of the first field named `key`, if any. */
  function Lookup(fields: seq<Field>, key: string): (v: Option<Value>)
    ensures v.Some? <==> exists i :: 0 <= i < |fields| && fields[i].key == key
    ensures v.Some? ==>
      (exists i :: 0 <= i < |fields| && fields[i].key == key && fields[i].value == v.value &&
        (forall j :: 0 <= j < i ==> fields[j].key != key))
  {
    if fields == [] then None
    else if fields[0].key == key then Some(fields[0].value)
    else Lookup(fields[1..], key)
  }

  function IdOf(item: Item): Option<Value>
  {
    Lookup(item.fields, "id")
  }

  /** `item.id !== id`: an item without a numeric id equal to `id` is kept. */
  predicate KeepsId(item: Item, id: int)
  {
    IdOf(item) != Some(Num(id))
  }

  /** `handleDelete`'s new list: `data.filter(item => item.id !== id)`. */
  function DeleteById(data: seq<Item>, id: int): (r: seq<Item>)
    ensures forall x :: x in r <==> x in data && IdOf(x) != Some(Num(id))
    ensures forall x :: x in r ==> IdOf(x) != Some(Num(id))
  {
    Filter(data, item => KeepsId(item, id))
  }

  /**
   * Deleting removes every copy of the items carrying that id, keeps every copy of the others,
   * and keeps the survivors in their original order.
   */
  lemma DeleteByIdExact(data: seq<Item>, id: int)
    ensures forall x ::
      multiset(DeleteById(data, id))[x] == (if IdOf(x) == Some(Num(id)) then 0 else multiset(data)[x])
    ensures IsSubsequence(DeleteById(data, id), data)
  {
    FilterCount(data, item => KeepsId(item, id));
    FilterIsSubsequence(data, item => KeepsId(item, id));
  }

  /**
   * `String(value)`: a string is itself, a number its decimal numeral (which reads back as the
   * number), and the other values their JavaScript names.
   */
  function ToJsString(v: Value): (r: string)
    ensures v.Str? ==> r == v.s
    ensures v.Num? ==> r == IntToString(v.n) && ParseInt(r) == v.n
    ensures v.Bool? ==> r == if v.b then "true" else "false"
    ensures v.Null? ==> r == "null"
    ensures v.Undefined? ==> r == "undefined"
  {
    match v
    case Num(n) => IntToStringRoundTrip(n); IntToString(n)
    case Str(s) => s
    case Bool(b) => if b then "true" else "false"
    case Null => "null"
    case Undefined => "undefined"
  }

  /** Some field value, stringified and lower-cased, includes `needle`. */
  predicate SomeValueIncludes(fields: seq<Field>, needle: string)
  {
    if fields == [] then false
    else Includes(Lower(ToJsString(fields[0].value)), needle) || SomeValueIncludes(fields[1..], needle)
  }

  /** The search predicate: `Object.values(item).some(val => String(val).toLowerCase().includes(term.toLowerCase()))`. */
  predicate Matches(item: Item, term: string)
  {
    SomeValueIncludes(item.fields, Lower(term))
  }

  /** An item matches exactly when one of its values, lower-cased, contains the lower-cased term. */
  lemma {:induction false} MatchesIff(fields: seq<Field>, needle: string)
    ensures SomeValueIncludes(fields, needle) <==>
      exists i :: 0 <= i < |fields| && Includes(Lower(ToJsString(fields[i].value)), needle)
  {
    if fields != [] {
      MatchesIff(fields[1..], needle);
      if SomeValueIncludes(fields[1..], needle) {
        var j :| 0 <= j < |fields[1..]| && Includes(Lower(ToJsString(fields[1..][j].value)), needle);
        assert fields[1..][j] == fields[j + 1];
      }
      forall i | 1 <= i < |fields| && Includes(Lower(ToJsString(fields[i].value)), needle)
        ensures SomeValueIncludes(fields[1..], needle)
      {
        assert fields[1..][i - 1] == fields[i];
      }
    }
  }

  /** `filteredData`: the items matching the search term, in their original order. */
  function Search(data: seq<Item>, term: string): (r: seq<Item>)
    ensures forall x :: x in r <==> x in data && Matches(x, term)
  {
    Filter(data, item => Matches(item, term))
  }

  /** The search result keeps every matching copy, drops every other one, and keeps the order. */
  lemma SearchExact(data: seq<Item>, term: string)
    ensures forall x :: multiset(Search(data, term))[x] == if Matches(x, term) then multiset(data)[x] else 0
    ensures IsSubsequence(Search(data, term), data)
  {
    FilterCount(data, item => Matches(item, term));
    FilterIsSubsequence(data, item => Matches(item, term));
  }

  /** An empty search term keeps every item that has at least one field, such as its `id`. */
  lemma EmptySearchKeepsAll(data: seq<Item>)
    requires forall i :: 0 <= i < |data| ==> IdOf(data[i]).Some?
    ensures Search(data, "") == data
  {
    forall i | 0 <= i < |data|
      ensures Matches(data[i], "")
    {
      IncludesEmpty(Lower(ToJsString(data[i].fields[0].value)));
    }
    FilterAll(data, item => Matches(item, ""));
  }

  /** An item with numeric fields, `{id: 1001, stock: 45}`. */
  function StockRow(): Item
  {
    Item([Field("id", Num(1001)), Field("stock", Num(45))])
  }

  /** Numeric fields are searchable through their numerals: the row matches `"45"` and `"100"`. */
  lemma NumericFieldsAreSearchable()
    ensures Matches(StockRow(), "45") && Matches(StockRow(), "100")
  {
    assert NatToString(1001) == NatToString(100) + "1";
    assert NatToString(100) == NatToString(10) + "0";
    assert IntToString(1001) == "1001";
    assert IntToString(45) == "45";
    assert Includes("45", "45");
    assert "1001"[..3] == "100";
    assert Includes("1001", "100");
  }

  /** A term that is no value's substring finds nothing: the row does not match `"46"`. */
  lemma NumericFieldsDoNotMatchOtherDigits()
    ensures !Matches(StockRow(), "46")
  {
    assert NatToString(1001) == NatToString(100) + "1";
    assert NatToString(100) == NatToString(10) + "0";
    assert IntToString(1001) == "1001";
    assert IntToString(45) == "45";
    assert "1001"[1..] == "001" && "001"[1..] == "01" && "01"[1..] == "1";
    assert !Includes("1", "46");
    assert "01"[..2][0] != "46"[0];
    assert !Includes("01", "46");
    assert "001"[..2][0] != "46"[0];
    assert !Includes("001", "46");
    assert "1001"[..2][0] != "46"[0];
    assert !Includes("1001", "46");
    assert "45"[..2][1] != "46"[1];
    assert !Includes("45", "46");
    assert Lower("46") == "46" && Lower("45") == "45" && Lower("1001") == "1001";
    var fields := StockRow().fields;
    assert !Includes(Lower(ToJsString(fields[0].value)), Lower("46"));
    assert !Includes(Lower(ToJsString(fields[1].value)), Lower("46"));
    assert !SomeValueIncludes(fields[1..][1..], Lower("46"));
  }

  /** The search ignores the case of the term: lower-casing it first changes nothing. */
  lemma SearchIgnoresTermCase(data: seq<Item>, term: string)
    ensures Search(data, Lower(term)) == Search(data, term)
  {
    LowerIdempotent(term);
    FilterCongruent(data, item => Matches(item, Lower(term)), item => Matches(item, term));
  }

  /** `Object.keys(item)`. */
  function Keys(item: Item): (ks: seq<string>)
    ensures |ks| == |item.fields|
    ensures forall i :: 0 <= i < |ks| ==> ks[i] == item.fields[i].key
  {
    seq(|item.fields|, i requires 0 <= i < |item.fields| => item.fields[i].key)
  }

  /** `getColumns`: the first item's keys without `id`, or nothing when there is no data. */
  function Columns(data: seq<Item>): (cols: seq<string>)
    ensures "id" !in cols
    ensures data == [] ==> cols == []
    ensures data != [] ==> forall k :: k in cols <==> k in Keys(data[0]) && k != "id"
  {
    if |data| == 0 then [] else Filter(Keys(data[0]), key => key != "id")
  }

  /** The columns appear in the first item's key order, every non-`id` key exactly as often as there. */
  lemma ColumnsOrder(data: seq<Item>)
    requires data != []
    ensures IsSubsequence(Columns(data), Keys(data[0]))
    ensures forall k :: k != "id" ==> multiset(Columns(data))[k] == multiset(Keys(data[0]))[k]
  {
    FilterIsSubsequence(Keys(data[0]), key => key != "id");
    FilterCount(Keys(data[0]), key => key != "id");
  }
}
