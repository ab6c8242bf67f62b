/** The reference-field flattener of JsonFlatener.py: it reduces one cell of
    a reference column (technician, customer, ...) to the value stored under
    a fixed key, or to the sentinel "Unknown". */
module Flattening {
  import opened PyValues

  /** What `json.loads` gives for a text: a decode error, a JSON object, or
      some other JSON value (array, number, string, true/false/null). */
  datatype Parsed = DecodeError | Object(fields: map<string, Value>) | NonObject

  /** `json.loads` itself is not modelled; every member that parses takes it
      as a parameter. */
  type Loads = string -> Parsed

  /** The key a flattener extracts when none is given. */
  const DefaultKey: string := "name"

  /** `s.replace("'", '"')`: every single quote becomes a double quote. */
  function ReplaceQuotes(s: string): (r: string)
    ensures |r| == |s|
    ensures forall i :: 0 <= i < |s| ==> r[i] == (if s[i] == '\'' then '"' else s[i])
  {
    if s == [] then [] else [if s[0] == '\'' then '"' else s[0]] + ReplaceQuotes(s[1..])
  }

  /** After the rewrite no single quote is left, and every quote of either
      kind in the input has become a double quote. */
  lemma {:induction false} ReplaceQuotesCounts(s: string)
    ensures multiset(ReplaceQuotes(s))['\''] == 0
    ensures multiset(ReplaceQuotes(s))['"'] == multiset(s)['"'] + multiset(s)['\'']
  {
    if s != [] {
      ReplaceQuotesCounts(s[1..]);
      assert s == [s[0]] + s[1..];
      assert ReplaceQuotes(s) == [ReplaceQuotes(s)[0]] + ReplaceQuotes(s[1..]);
    }
  }

  /** The rewrite works character by character, so it distributes over concatenation. */
  lemma ReplaceQuotesConcat(a: string, b: string)
    ensures ReplaceQuotes(a + b) == ReplaceQuotes(a) + ReplaceQuotes(b)
  {
  }

  /** The rewrite leaves a text that has no single quotes unchanged; in
      particular, rewriting twice is rewriting once. */
  lemma ReplaceQuotesUnchanged(s: string)
    requires '\'' !in s
    ensures ReplaceQuotes(s) == s
  {
  }

  lemma ReplaceQuotesIdempotent(s: string)
    ensures ReplaceQuotes(ReplaceQuotes(s)) == ReplaceQuotes(s)
  {
    ReplaceQuotesUnchanged(ReplaceQuotes(s));
  }

  /** A fact about any JSON parser (section 7 of RFC 8259): quotation marks
      only delimit strings, and one inside a string must be escaped with a
      reverse solidus. So a text without a reverse solidus that parses holds
      an even number of quotation marks. */
  ghost predicate QuotesPairUp(loads: Loads) {
    forall t {:trigger loads(t)} :: loads(t) != DecodeError && '\\' !in t ==> !IsOdd(multiset(t)['"'])
  }

  predicate IsOdd(n: nat) {
    n % 2 == 1
  }

  /** A flattener; its key is fixed when it is created. */
  datatype JsonFlatener = JsonFlatener(keyToExtract: string := DefaultKey) {

    /** `d.get(self.key_to_extract, 'Unknown')` on a dictionary. */
    function Get(d: map<string, Value>): Value {
      if keyToExtract in d then d[keyToExtract] else Unknown
    }

    /** `flatten_json`. A string that parses to a JSON value other than an
        object makes `.get` raise, and nothing catches that. */
    function FlattenJson(loads: Loads, jsonData: Value): (r: Outcome<Value>)
      ensures r.Raised? <==> jsonData.Str? && loads(ReplaceQuotes(jsonData.s)) == NonObject
      ensures r.Raised? ==> r.exc == AttributeError
    {
      match jsonData
      case Null => Ok(Unknown)
      case Dict(d) => Ok(Get(d))
      case Str(s) =>
        (match loads(ReplaceQuotes(s))
         case Object(d) => Ok(Get(d))
         case DecodeError => Ok(Unknown)
         case NonObject => Raised(AttributeError))
      case Number(_) => Ok(Unknown)
      case Time(_) => Ok(Unknown)
    }
  }

  /** A flattener created without a key extracts "name". */
  lemma DefaultKeyIsName(loads: Loads, d: map<string, Value>)
    requires "name" in d
    ensures JsonFlatener().FlattenJson(loads, Dict(d)) == Ok(d["name"])
  {
  }

  /** A missing cell always flattens to "Unknown". */
  lemma NullIsUnknown(f: JsonFlatener, loads: Loads)
    ensures f.FlattenJson(loads, Null) == Ok(Unknown)
  {
  }

  /** A dictionary gives the value at the key, as it is, or "Unknown". */
  lemma DictGivesValueAtKey(f: JsonFlatener, loads: Loads, d: map<string, Value>)
    ensures f.keyToExtract in d ==> f.FlattenJson(loads, Dict(d)) == Ok(d[f.keyToExtract])
    ensures f.keyToExtract !in d ==> f.FlattenJson(loads, Dict(d)) == Ok(Unknown)
  {
  }

  /** A string is parsed only after the quote rewrite; an object then behaves
      as a dictionary cell, and a decode error gives "Unknown". */
  lemma StringParsedAfterRewrite(f: JsonFlatener, loads: Loads, s: string)
    ensures loads(ReplaceQuotes(s)) == DecodeError ==> f.FlattenJson(loads, Str(s)) == Ok(Unknown)
    ensures loads(ReplaceQuotes(s)).Object? ==>
              f.FlattenJson(loads, Str(s)) == f.FlattenJson(loads, Dict(loads(ReplaceQuotes(s)).fields))
  {
  }

  /** Every other type of value gives "Unknown". */
  lemma OtherTypesAreUnknown(f: JsonFlatener, loads: Loads, v: Value)
    requires !v.Null? && !v.Dict? && !v.Str?
    ensures f.FlattenJson(loads, v) == Ok(Unknown)
  {
  }

  /** A Python-repr string `{'name': '<n>'}` (for instance `{'name': 'Bob'}`)
      gives `<n>` for any parser that reads its rewrite `{"name": "<n>"}` as
      that object, provided `<n>` holds no single quote. */
  lemma PythonReprIsRead(loads: Loads, n: string)
    requires '\'' !in n
    requires loads("{\"name\": \"" + n + "\"}") == Object(map["name" := Str(n)])
    ensures JsonFlatener().FlattenJson(loads, Str("{'name': '" + n + "'}")) == Ok(Str(n))
  {
    ReplaceQuotesConcat("{'name': '" + n, "'}");
    ReplaceQuotesConcat("{'name': '", n);
    ReplaceQuotesUnchanged(n);
    ReprDelimiters();
  }

  /** How the rewrite treats the fixed parts of a one-key Python repr. */
  lemma ReprDelimiters()
    ensures ReplaceQuotes("{'name': '") == "{\"name\": \""
    ensures ReplaceQuotes("'}") == "\"}"
  {
  }

  /** Because the rewrite is global, a string whose quotes of both kinds
      together are odd in number (an apostrophe inside a value, say) cannot
      decode once rewritten, and so gives "Unknown". */
  lemma {:induction false} StrayApostropheIsUnknown(f: JsonFlatener, loads: Loads, s: string)
    requires QuotesPairUp(loads)
    requires '\\' !in s
    requires IsOdd(multiset(s)['"'] + multiset(s)['\''])
    ensures f.FlattenJson(loads, Str(s)) == Ok(Unknown)
  {
    var t := ReplaceQuotes(s);
    ReplaceQuotesCounts(s);
    NoBackslashAfterRewrite(s);
    assert IsOdd(multiset(t)['"']);
    OddQuotesDoNotDecode(loads, t);
    assert loads(t) == DecodeError;
  }

  /** The rewrite touches quotes only: every other character, the reverse
      solidus among them, occurs as often after it as before. */
  lemma {:induction false} ReplaceQuotesKeepsOthers(s: string, c: char)
    requires c != '\'' && c != '"'
    ensures multiset(ReplaceQuotes(s))[c] == multiset(s)[c]
  {
    if s != [] {
      ReplaceQuotesKeepsOthers(s[1..], c);
      assert s == [s[0]] + s[1..];
      assert ReplaceQuotes(s) == [ReplaceQuotes(s)[0]] + ReplaceQuotes(s[1..]);
    }
  }

  /** In particular the rewrite neither adds nor removes a reverse solidus. */
  lemma ReplaceQuotesKeepsBackslashes(s: string)
    ensures multiset(ReplaceQuotes(s))['\\'] == multiset(s)['\\']
  {
    ReplaceQuotesKeepsOthers(s, '\\');
  }

  lemma NoBackslashAfterRewrite(s: string)
    requires '\\' !in s
    ensures '\\' !in ReplaceQuotes(s)
  {
    var t := ReplaceQuotes(s);
    assert forall i :: 0 <= i < |t| ==> t[i] != '\\';
  }

  lemma OddQuotesDoNotDecode(loads: Loads, t: string)
    requires QuotesPairUp(loads)
    requires '\\' !in t && IsOdd(multiset(t)['"'])
    ensures loads(t) == DecodeError
  {
  }

  /** A name such as O'Brien, holding one apostrophe (or any odd number of
      them), makes its Python-repr cell unreadable. */
  lemma ApostropheInNameIsUnknown(loads: Loads, n: string)
    requires QuotesPairUp(loads)
    requires '"' !in n && '\\' !in n && IsOdd(multiset(n)['\''])
    ensures JsonFlatener().FlattenJson(loads, Str("{'name': '" + n + "'}")) == Ok(Unknown)
  {
    var s := "{'name': '" + n + "'}";
    PrefixQuotes();
    PrefixPlain();
    SuffixQuotes();
    assert multiset(s)['"'] == 0;
    assert multiset(s)['\''] == multiset(n)['\''] + 4;
    assert '\\' !in s;
    StrayApostropheIsUnknown(JsonFlatener(), loads, s);
  }

  /** The quotes in the fixed parts of a one-key Python repr. */
  lemma PrefixQuotes()
    ensures multiset("{'name': '")['\''] == 3
  {
  }

  lemma PrefixPlain()
    ensures '"' !in "{'name': '" && '\\' !in "{'name': '"
  {
  }

  lemma SuffixQuotes()
    ensures multiset("'}")['\''] == 1
    ensures '"' !in "'}" && '\\' !in "'}"
  {
  }

  /** The name O'Brien meets the conditions of ApostropheInNameIsUnknown. */
  lemma OBrienHasOneApostrophe()
    ensures '"' !in "O'Brien" && '\\' !in "O'Brien" && IsOdd(multiset("O'Brien")['\''])
  {
  }

  /** So the cell `{'name': 'O'Brien'}` gives "Unknown". */
  lemma OBrienIsUnknown(loads: Loads)
    requires QuotesPairUp(loads)
    ensures JsonFlatener().FlattenJson(loads, Str("{'name': '" + "O'Brien" + "'}")) == Ok(Unknown)
  {
    OBrienHasOneApostrophe();
    ApostropheInNameIsUnknown(loads, "O'Brien");
  }
}
