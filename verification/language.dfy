/** File-name driven lookups: the highlighter language of a file
    (`getFileLanguage`) and the starter contents of a new file. Both read a
    plain JavaScript object literal with `table[ext] || fallback`; the
    `...AsWritten` members model that lookup exactly, including the
    properties every object literal inherits, and the other members model
    the evidently intended own-key lookup that the rest of the model uses. */
module Language {
  import opened Strings

  /** What `obj[key]` yields on an object literal whose own properties are
      strings: an own string, an inherited `Object.prototype` member (a
      function or an object, both truthy), or `undefined`. */
  datatype JsValue = Undefined | Str(s: string) | Inherited(member: string)

  /** The property names every object literal inherits from
      `Object.prototype` (section 20.1.3 of ECMA-262, plus the legacy
      accessors of Annex B). */
  const ObjectPrototypeMembers: set<string> := {
    "constructor", "hasOwnProperty", "isPrototypeOf", "propertyIsEnumerable",
    "toLocaleString", "toString", "valueOf", "__proto__",
    "__defineGetter__", "__defineSetter__", "__lookupGetter__", "__lookupSetter__"
  }

  /** `obj[key]` for an object literal with the own string properties `own`. */
  function Property(own: map<string, string>, key: string): (v: JsValue)
    ensures v.Str? <==> key in own
    ensures v.Str? ==> v.s == own[key]
    ensures v.Inherited? <==> key !in own && key in ObjectPrototypeMembers
    ensures v.Undefined? <==> key !in own && key !in ObjectPrototypeMembers
  {
    if key in own then Str(own[key])
    else if key in ObjectPrototypeMembers then Inherited(key)
    else Undefined
  }

  /** JavaScript truthiness of a looked-up value. */
  predicate Truthy(v: JsValue)
  {
    match v
    case Undefined => false
    case Str(s) => s != ""
    case Inherited(_) => true
  }

  /** `v || fallback`. */
  function OrElse(v: JsValue, fallback: string): (r: JsValue)
    ensures Truthy(v) ==> r == v
    ensures !Truthy(v) ==> r == Str(fallback)
  {
    if Truthy(v) then v else Str(fallback)
  }

  /** `filename.split('.').pop().toLowerCase()`. */
  function Extension(filename: string): string
  {
    Lower(AfterLastDot(filename))
  }

  /** The extension-to-language table of `getFileLanguage`. */
  const Languages: map<string, string> :=
    map["html" := "html", "css" := "css", "js" := "javascript",
        "jsx" := "javascript", "json" := "json"]

  /** `getFileLanguage` as written: a plain-object lookup that also finds
      inherited members. */
  function FileLanguageAsWritten(filename: string): JsValue
  {
    OrElse(Property(Languages, Extension(filename)), "plaintext")
  }

  /** `getFileLanguage` as intended: own keys only. */
  function FileLanguage(filename: string): (r: string)
    ensures r in {"html", "css", "javascript", "json", "plaintext"}
    ensures r == "html" <==> Extension(filename) == "html"
    ensures r == "css" <==> Extension(filename) == "css"
    ensures r == "javascript" <==> Extension(filename) in {"js", "jsx"}
    ensures r == "json" <==> Extension(filename) == "json"
    ensures r == "plaintext" <==> Extension(filename) !in {"html", "css", "js", "jsx", "json"}
  {
    var ext := Extension(filename);
    if ext in Languages then Languages[ext] else "plaintext"
  }

  /** Away from the inherited property names, the written lookup and the
      intended one give the same language. */
  lemma LanguageAsWrittenAgrees(filename: string)
    requires Extension(filename) !in ObjectPrototypeMembers
    ensures FileLanguageAsWritten(filename) == Str(FileLanguage(filename))
  {
  }

  /** A string without upper-case ASCII letters is its own lower case. */
  lemma LowerOfLowerCase(s: string)
    requires forall i :: 0 <= i < |s| ==> !('A' <= s[i] <= 'Z')
    ensures Lower(s) == s
  {
  }

  /** The extension of `prefix.name` for a dot-free lower-case `name`. */
  lemma ExtensionOf(prefix: string, name: string)
    requires Dot !in name
    requires forall i :: 0 <= i < |name| ==> !('A' <= name[i] <= 'Z')
    ensures Extension(prefix + [Dot] + name) == name
  {
    AfterLastDotOfSuffix(prefix, name);
    LowerOfLowerCase(name);
  }

  /** The discrepancy: for `index.constructor` the written lookup returns
      the inherited `Object` constructor instead of a language name. */
  lemma ConstructorFileHasNoLanguage()
    ensures FileLanguageAsWritten("index.constructor") == Inherited("constructor")
    ensures FileLanguage("index.constructor") == "plaintext"
  {
    ExtensionOf("index", "constructor");
    assert "index" + [Dot] + "constructor" == "index.constructor";
  }

  /** The same happens for `__proto__`, which yields `Object.prototype`. */
  lemma ProtoFileHasNoLanguage()
    ensures !FileLanguageAsWritten("page.__proto__").Str?
  {
    ExtensionOf("page", "__proto__");
    assert "page" + [Dot] + "__proto__" == "page.__proto__";
  }

  /** The extension's letter case does not matter. */
  lemma UpperCaseExtension()
    ensures FileLanguage("index.HTML") == "html"
  {
    AfterLastDotOfSuffix("index", "HTML");
    assert "index" + [Dot] + "HTML" == "index.HTML";
    assert Lower("HTML") == "html";
  }

  /** Only the text after the last dot counts. */
  lemma NestedPathExtension()
    ensures FileLanguage("src/App.jsx") == "javascript"
  {
    ExtensionOf("src/App", "jsx");
    assert "src/App" + [Dot] + "jsx" == "src/App.jsx";
  }

  /** A name without a dot is its own extension; a trailing dot leaves none. */
  lemma DotlessAndTrailingDot()
    ensures FileLanguage("js") == "javascript"
    ensures FileLanguage("notes.") == "plaintext"
  {
    AfterLastDotNoDot("js");
    LowerOfLowerCase("js");
    assert AfterLastDot("notes.") == "";
  }

  const HtmlTemplate: string :=
    "<!DOCTYPE html>\n<html>\n<head>\n    <title>My Page</title>\n    <link rel=\"stylesheet\" href=\"styles.css\">\n</head>\n<body>\n    <h1>Hello World</h1>\n    <script src=\"script.js\"></script>\n</body>\n</html>"
  const CssTemplate: string :=
    "/* Add your styles here */\nbody {\n    margin: 0;\n    padding: 20px;\n    font-family: Arial, sans-serif;\n}"
  const JsTemplate: string :=
    "// Add your JavaScript code here\nconsole.log(\"Script loaded!\");"

  /** The extension-to-starter-contents table of the new-file button. */
  const Templates: map<string, string> :=
    map["html" := HtmlTemplate, "css" := CssTemplate, "js" := JsTemplate]

  /** The new file's contents as written: a plain-object lookup with `''`
      as the fallback. */
  function TemplateAsWritten(filename: string): JsValue
  {
    OrElse(Property(Templates, Extension(filename)), "")
  }

  /** The new file's contents as intended: the html, css or js starter, and
      the empty string for every other extension (`jsx` and `json` too). */
  function Template(filename: string): (r: string)
    ensures r == HtmlTemplate <==> Extension(filename) == "html"
    ensures r == CssTemplate <==> Extension(filename) == "css"
    ensures r == JsTemplate <==> Extension(filename) == "js"
    ensures r == "" <==> Extension(filename) !in {"html", "css", "js"}
  {
    var ext := Extension(filename);
    if ext in Templates then Templates[ext] else ""
  }

  /** Away from the inherited property names, both lookups agree. */
  lemma TemplateAsWrittenAgrees(filename: string)
    requires Extension(filename) !in ObjectPrototypeMembers
    ensures TemplateAsWritten(filename) == Str(Template(filename))
  {
  }

  /** The discrepancy: a new file named `x.constructor` would be given the
      inherited `Object` constructor as its contents. */
  lemma ConstructorFileGetsNoTemplate()
    ensures TemplateAsWritten("x.constructor") == Inherited("constructor")
    ensures Template("x.constructor") == ""
  {
    ExtensionOf("x", "constructor");
    assert "x" + [Dot] + "constructor" == "x.constructor";
  }
}
