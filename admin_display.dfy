/**
 * The list-column helpers of the admin site: the dotted-path mini-language
 * `_follow` that reads a value off a model object, the header image and
 * coloured-initials builders, and the column function `make_display` builds.
 *
 * Python values are modelled by `Value`: `None`, strings, booleans, integers
 * and objects.  An object has named attributes, may be callable (with a fixed
 * result), has its `str()` text and its truth value.
 */
module AdminDisplay {
  import opened Wrappers
  import opened Text

  datatype Value =
    | NoneV
    | Str(s: string)
    | Bool(b: bool)
    | Int(i: int)
    | Obj(attrs: map<string, Value>, callResult: Option<Value>, text: string, truthy: bool)

  /** What Python raises while a column is computed. */
  datatype DisplayError =
    | NotCallable                     // `value()` on something that is not callable
    | MissingAttribute(name: string)  // `value.name` without a default

  /** `str(v)`. */
  function StrOf(v: Value): string {
    match v
    case NoneV => "None"
    case Str(s) => s
    case Bool(b) => if b then "True" else "False"
    case Int(i) => if i < 0 then "-" + Decimal(-i) else Decimal(i)
    case Obj(_, _, text, _) => text
  }

  /** `bool(v)`. */
  predicate Truthy(v: Value) {
    match v
    case NoneV => false
    case Str(s) => s != ""
    case Bool(b) => b
    case Int(i) => i != 0
    case Obj(_, _, _, truthy) => truthy
  }

  /** `getattr(v, name, None)`. */
  function GetAttr(v: Value, name: string): Value {
    if v.Obj? && name in v.attrs then v.attrs[name] else NoneV
  }

  // ----- _follow ----------------------------------------------------------------

  const CallPart := "()"

  /** One step of the walk: a call for `()`, otherwise an attribute read. */
  function Step(v: Value, part: string): Result<Value, DisplayError> {
    if part == CallPart then
      if v.Obj? && v.callResult.Some? then Ok(v.callResult.value) else Err(NotCallable)
    else Ok(GetAttr(v, part))
  }

  /** The walk over `parts`, stopping as soon as a step gives `None`. */
  function Walk(v: Value, parts: seq<string>): Result<Value, DisplayError> {
    if parts == [] then Ok(v)
    else match Step(v, parts[0])
      case Err(e) => Err(e)
      case Ok(w) => if w == NoneV then Ok(NoneV) else Walk(w, parts[1..])
  }

  /** `resolve(path)` of `_follow(obj, …)`. */
  function Resolved(obj: Value, path: string): Result<Value, DisplayError> {
    if StartsWith(path, "=") then Ok(Str(Strip(path, '=')))
    else Walk(obj, Split(path, "__"))
  }

  /** The `+`-joined text of `parts`, left to right; the first error wins. */
  function Joined(obj: Value, parts: seq<string>): Result<string, DisplayError> {
    if parts == [] then Ok("")
    else match Joined(obj, parts[..|parts| - 1])
      case Err(e) => Err(e)
      case Ok(s) =>
        match Resolved(obj, parts[|parts| - 1])
        case Err(e) => Err(e)
        case Ok(v) => Ok(s + StrOf(v))
  }

  /** `_follow(obj, dotted_path)`. */
  function Followed(obj: Value, path: string): Result<Value, DisplayError> {
    if '+' in path then
      match Joined(obj, Split(path, "+"))
      case Err(e) => Err(e)
      case Ok(s) => Ok(Str(s))
    else Resolved(obj, path)
  }

  /** `resolve`: the loop that walks `value` along the path. */
  method Resolve(obj: Value, path: string) returns (r: Result<Value, DisplayError>)
    ensures r == Resolved(obj, path)
  {
    if StartsWith(path, "=") {
      return Ok(Str(Strip(path, '=')));
    }
    var parts := Split(path, "__");
    var value := obj;
    var i := 0;
    while i < |parts|
      invariant 0 <= i <= |parts|
      invariant Walk(obj, parts) == Walk(value, parts[i..])
    {
      assert parts[i..][1..] == parts[i + 1..];
      if parts[i] == CallPart {
        if !(value.Obj? && value.callResult.Some?) {
          return Err(NotCallable);
        }
        value := value.callResult.value;
      } else {
        value := GetAttr(value, parts[i]);
      }
      if value == NoneV {
        return Ok(NoneV);
      }
      i := i + 1;
    }
    r := Ok(value);
  }

  /** The generator of `_follow` that joins the `str()` of every piece. */
  method JoinPieces(obj: Value, parts: seq<string>) returns (r: Result<string, DisplayError>)
    ensures r == Joined(obj, parts)
  {
    var text := "";
    for i := 0 to |parts|
      invariant Joined(obj, parts[..i]) == Ok(text)
    {
      assert parts[..i + 1][..i] == parts[..i];
      var piece := Resolve(obj, parts[i]);
      if piece.Err? {
        JoinedErrorSticks(obj, parts, i + 1);
        return Err(piece.error);
      }
      text := text + StrOf(piece.value);
    }
    assert parts[..|parts|] == parts;
    r := Ok(text);
  }

  /** `_follow`: a path with `+` is cut into pieces that are followed in turn
      (none of them holds a `+`, so each is a plain `resolve`) and joined. */
  method Follow(obj: Value, path: string) returns (r: Result<Value, DisplayError>)
    ensures r == Followed(obj, path)
  {
    if '+' in path {
      var text := JoinPieces(obj, Split(path, "+"));
      if text.Err? {
        return Err(text.error);
      }
      return Ok(Str(text.value));
    }
    r := Resolve(obj, path);
  }

  /** Once a piece fails, the whole join fails with that error. */
  lemma {:induction false} JoinedErrorSticks(obj: Value, parts: seq<string>, i: nat)
    requires i <= |parts| && Joined(obj, parts[..i]).Err?
    ensures Joined(obj, parts) == Joined(obj, parts[..i])
    decreases |parts| - i
  {
    if i < |parts| {
      assert parts[..i + 1][..i] == parts[..i];
      JoinedErrorSticks(obj, parts, i + 1);
    } else {
      assert parts[..i] == parts;
    }
  }

  /** A literal path gives its text with every leading and trailing `=`
      removed (`path.strip("=")`): a slice of the path whose dropped ends are
      all `=` and which neither starts nor ends with `=`. */
  lemma LiteralPath(obj: Value, path: string)
    requires StartsWith(path, "=") && '+' !in path
    ensures Followed(obj, path) == Ok(Str(Strip(path, '=')))
    ensures var t := Followed(obj, path).value.s;
            && (t == [] || (t[0] != '=' && t[|t| - 1] != '='))
            && exists i, j :: 0 <= i <= j <= |path| && t == path[i..j]
                 && (forall k :: 0 <= k < i ==> path[k] == '=') && (forall k :: j <= k < |path| ==> path[k] == '=')
  {
    StripMeaning(path, '=');
  }

  /** The walk stops at the first `None`: whatever follows it is never looked at. */
  lemma WalkStopsAtNone(v: Value, part: string, rest: seq<string>, other: seq<string>)
    requires Step(v, part) == Ok(NoneV)
    ensures Walk(v, [part] + rest) == Walk(v, [part] + other) == Ok(NoneV)
  {
  }

  /** `+` is looked for before `=`: a path such as `"=From +start_time"` is
      the literal `"From "` followed by the text of what the rest resolves to. */
  lemma {:induction false} PlusBeforeLiteral(obj: Value, lit: string, rest: string)
    requires '+' !in lit && '+' !in rest
    requires Resolved(obj, rest).Ok?
    ensures Followed(obj, "=" + lit + "+" + rest) == Ok(Str(Strip("=" + lit, '=') + StrOf(Resolved(obj, rest).value)))
  {
    var head := "=" + lit;
    var path := head + ['+'] + rest;
    assert path == "=" + lit + "+" + rest;
    LiteralHead(lit);
    SplitAtOnePlus(head, rest);
    assert path[|head|] == '+';
    JoinedPair(obj, head, rest);
  }

  /** `"=" + lit` is a literal path, and holds a `+` only where `lit` does. */
  lemma LiteralHead(lit: string)
    requires '+' !in lit
    ensures '+' !in "=" + lit && StartsWith("=" + lit, "=")
  {
    var head := "=" + lit;
    forall k | 0 <= k < |head| ensures head[k] != '+' {
      if k > 0 { assert head[k] == lit[k - 1]; }
    }
    assert head[..1] == "=";
  }

  /** Two pieces that both resolve are joined as their texts, in order. */
  lemma JoinedPair(obj: Value, a: string, b: string)
    requires Resolved(obj, a).Ok? && Resolved(obj, b).Ok?
    ensures Joined(obj, [a, b]) == Ok(StrOf(Resolved(obj, a).value) + StrOf(Resolved(obj, b).value))
  {
    var pieces := [a, b];
    assert pieces[..1] == [a] && pieces[..1][..0] == [];
    assert Joined(obj, []) == Ok("");
    assert "" + StrOf(Resolved(obj, a).value) == StrOf(Resolved(obj, a).value);
  }

  /** A path with exactly one `+` is cut into the text before it and after it. */
  lemma SplitAtOnePlus(head: string, rest: string)
    requires '+' !in head && '+' !in rest
    ensures Split(head + ['+'] + rest, "+") == [head, rest]
  {
    var path := head + ['+'] + rest;
    assert path[|head|] == '+';
    IndexOfAfterPrefix(head, '+', rest);
    assert path[..|head|] == head && path[|head| + 1..] == rest;
    IndexOfAbsent(rest, '+');
    assert "+" == ['+'];
    assert Split(rest, "+") == [rest];
    assert Split(path, "+") == [path[..|head|]] + Split(path[|head| + 1..], "+");
  }

  // ----- header cells -------------------------------------------------------------

  /** The items of a header column: text cells and pictures. */
  datatype Part =
    | Cell(v: Value)
    | Picture(path: Value, width: nat, height: nat, squared: bool, borderless: bool)

  /** The placeholder image URL for a picture of `size` pixels. */
  function PlaceholderUrl(size: nat): string {
    "https://placehold.co/" + Decimal(size) + "x" + Decimal(size) + "?text=?"
  }

  /** `header_img(image, size)`. */
  function HeaderImg(image: Value, size: nat): (r: Result<seq<Part>, DisplayError>)
    ensures r.Ok? ==> |r.value| == 2 && r.value[0] == Cell(Str(""))
                      && r.value[1].Picture? && r.value[1].width == size == r.value[1].height
    ensures !Truthy(image) ==> r == Ok([Cell(Str("")), Picture(Str(PlaceholderUrl(size)), size, size, true, true)])
    ensures Truthy(image) ==>
              if image.Obj? && "url" in image.attrs then r.Ok? && r.value[1].path == image.attrs["url"]
              else r == Err(MissingAttribute("url"))
  {
    if !Truthy(image) then Ok([Cell(Str("")), Picture(Str(PlaceholderUrl(size)), size, size, true, true)])
    else if image.Obj? && "url" in image.attrs then Ok([Cell(Str("")), Picture(image.attrs["url"], size, size, true, true)])
    else Err(MissingAttribute("url"))
  }

  const DefaultColor := "#a4eb3f"

  /** The initials shown in a coloured header square. */
  function Initials(text: string): (letter: string)
    ensures text == "" ==> letter == "?"
    ensures text != "" ==> |letter| == if |text| < 4 then |text| else 4
    ensures text != "" ==> forall k :: 0 <= k < |letter| ==> letter[k] == UpperChar(text[k])
  {
    if text == "" then "?" else Upper(text[..if |text| < 4 then |text| else 4])
  }

  /** `header_col(text, color)`: `color` must be a string (it is `lstrip`ped). */
  function HeaderCol(text: string, color: Value): (r: Result<seq<Part>, DisplayError>)
    ensures color.Str? <==> r.Ok?
    ensures r.Ok? ==>
              && |r.value| == 2 && r.value[0] == Cell(Str(""))
              && r.value[1] == Picture(Str("https://placehold.co/50x50/" + LStrip(color.s, '#') + "/000?text="
                                           + Initials(text) + "&font=oswald"), 50, 50, true, true)
  {
    if !color.Str? then Err(MissingAttribute("lstrip"))
    else
      var colorRaw := LStrip(color.s, '#');
      var url := "https://placehold.co/50x50/" + colorRaw + "/000?text=" + Initials(text) + "&font=oswald";
      Ok([Cell(Str("")), Picture(Str(url), 50, 50, true, true)])
  }

  // ----- make_display ------------------------------------------------------------

  /** The arguments of `make_display` that shape the column; an absent or empty
      string option is `None` or `""` (both falsy). */
  datatype DisplayConfig = DisplayConfig(
    primary: string,
    secondary: Option<string>,
    image: Option<string>,
    imageText: Option<string>,
    imageTextSuffix: Option<string>,
    imageTextColor: Option<string>,
    shortenSecondary: bool,
    secondarySuffix: Option<string>,
    header: bool,
    asLabel: bool)

  /** A string option that Python treats as true. */
  predicate Given(o: Option<string>) {
    o.Some? && o.value != ""
  }

  /** A column value: one value, or the list of a header column. */
  datatype Shown = Plain(v: Value) | Header(parts: seq<Part>)

  /** The text of a label column. */
  function LabelOf(v: Value): (r: Value)
    ensures v.Bool? ==> r == Str(if v.b then "Yes" else "No")
    ensures !v.Bool? ==> r == v
  {
    if v.Bool? then Str(if v.b then "Yes" else "No") else v
  }

  /** The secondary text of a header: the followed `secondary` path (or
      `None`), shortened and suffixed when configured. */
  method SecondaryText(obj: Value, cfg: DisplayConfig, shorten: string -> string) returns (r: Result<Value, DisplayError>)
    ensures r.Ok? && !Given(cfg.secondary) && !cfg.shortenSecondary && !Given(cfg.secondarySuffix) ==> r.value == NoneV
  {
    var secondaryText := NoneV;
    if Given(cfg.secondary) {
      var followed := Follow(obj, cfg.secondary.value);
      if followed.Err? {
        return Err(followed.error);
      }
      secondaryText := followed.value;
    }
    if cfg.shortenSecondary {
      secondaryText := Str(shorten(StrOf(secondaryText)));
    }
    if Given(cfg.secondarySuffix) {
      secondaryText := Str(StrOf(secondaryText) + cfg.secondarySuffix.value);
    }
    r := Ok(secondaryText);
  }

  /** The two cells of the header image at the configured `image` path. */
  method ImageCells(obj: Value, imagePath: string) returns (r: Result<seq<Part>, DisplayError>)
    ensures r.Ok? ==> |r.value| == 2
  {
    var image := Follow(obj, imagePath);
    if image.Err? {
      return Err(image.error);
    }
    r := HeaderImg(image.value, 50);
  }

  /** The two cells of the coloured initials square for the configured
      `image_text` path, its suffix (a space by default) and its colour. */
  method ImageTextCells(obj: Value, cfg: DisplayConfig, textPath: string) returns (r: Result<seq<Part>, DisplayError>)
    ensures r.Ok? ==> |r.value| == 2
  {
    var textValue := Follow(obj, textPath);
    if textValue.Err? {
      return Err(textValue.error);
    }
    var suffix := if Given(cfg.imageTextSuffix) then cfg.imageTextSuffix.value else " ";
    var imageTextValue := StrOf(textValue.value) + suffix;
    var color := Str(DefaultColor);
    if Given(cfg.imageTextColor) {
      var followedColor := Follow(obj, cfg.imageTextColor.value);
      if followedColor.Err? {
        return Err(followedColor.error);
      }
      color := followedColor.value;
    }
    r := HeaderCol(imageTextValue, color);
  }

  /** The header cells of a value whose primary text is `primary`: the
      primary and secondary cells, then the image cells and the image-text
      cells when those paths are configured. */
  method HeaderParts(obj: Value, cfg: DisplayConfig, primary: Value, shorten: string -> string) returns (r: Result<seq<Part>, DisplayError>)
    ensures r.Ok? ==> |r.value| == 2 + (if Given(cfg.image) then 2 else 0) + (if Given(cfg.imageText) then 2 else 0)
                        && r.value[0] == Cell(primary)
    ensures r.Ok? && !Given(cfg.secondary) && !cfg.shortenSecondary && !Given(cfg.secondarySuffix) ==> r.value[1] == Cell(NoneV)
  {
    var secondaryText := SecondaryText(obj, cfg, shorten);
    if secondaryText.Err? {
      return Err(secondaryText.error);
    }
    var parts := [Cell(primary), Cell(secondaryText.value)];
    if Given(cfg.image) {
      var img := ImageCells(obj, cfg.image.value);
      if img.Err? {
        return Err(img.error);
      }
      parts := parts + img.value;
    }
    if Given(cfg.imageText) {
      var col := ImageTextCells(obj, cfg, cfg.imageText.value);
      if col.Err? {
        return Err(col.error);
      }
      parts := parts + col.value;
    }
    r := Ok(parts);
  }

  /** The column function `_fn` of `make_display`.  `shorten` is
      `textwrap.shorten(…, width=100)`, which is not part of this model. */
  method Display(obj: Value, cfg: DisplayConfig, shorten: string -> string) returns (r: Result<Shown, DisplayError>)
    ensures var p := Followed(obj, cfg.primary);
            && (p.Err? ==> r == Err(p.error))
            && (p.Ok? && cfg.asLabel ==> r == Ok(Plain(LabelOf(p.value))))
            && (p.Ok? && !cfg.asLabel && !cfg.header ==> r == Ok(Plain(p.value)))
            && (p.Ok? && !cfg.asLabel && cfg.header && p.value == NoneV ==> r == Ok(Header([Cell(Str("")), Cell(Str(""))])))
            && (p.Ok? && !cfg.asLabel && cfg.header && p.value != NoneV && r.Ok? ==>
                  && r.value.Header?
                  && |r.value.parts| == 2 + (if Given(cfg.image) then 2 else 0) + (if Given(cfg.imageText) then 2 else 0)
                  && r.value.parts[0] == Cell(p.value))
    ensures r.Ok? && r.value.Header? && cfg.header && !cfg.asLabel && Followed(obj, cfg.primary).value != NoneV ==>
              !Given(cfg.secondary) && !cfg.shortenSecondary && !Given(cfg.secondarySuffix) ==> r.value.parts[1] == Cell(NoneV)
  {
    var primaryText := Follow(obj, cfg.primary);
    if primaryText.Err? {
      return Err(primaryText.error);
    }
    if cfg.asLabel {
      if primaryText.value.Bool? {
        return Ok(Plain(Str(if primaryText.value.b then "Yes" else "No")));
      }
      return Ok(Plain(primaryText.value));
    }
    if !cfg.header {
      return Ok(Plain(primaryText.value));
    }
    if primaryText.value == NoneV {
      return Ok(Header([Cell(Str("")), Cell(Str(""))]));
    }
    var parts := HeaderParts(obj, cfg, primaryText.value, shorten);
    if parts.Err? {
      return Err(parts.error);
    }
    r := Ok(Header(parts.value));
  }
}
