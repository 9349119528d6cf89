/**
 * The company edit form (client/company/editCompany.js): the two validators, which fill
 * an error map field by field, and the tag list edits. The URL test of the form library
 * is a parameter `isUrl`; a missing optional string is the empty string,
 * and the product URL is passed to `isUrl` as it is.
 */
module EditCompany {
  import opened Optional

  const TooManyTags := "標籤數量過多！"
  const TagTooLong := "單一標籤不可超過50個字！"
  const BadLink := "連結格式錯誤！"
  const DescriptionTooShort := "介紹文字過少！"
  const DescriptionTooLong := "介紹文字過多！"
  const MissingProductName := "缺少產品名稱！"
  const ProductNameTooShort := "產品名稱字數過短，至少需要 4 個字！"
  const ProductNameTooLong := "產品名稱字數過長，最多不超過 255 字！"
  const ProductDescriptionTooLong := "產品描述字數過長，最多不超過 500 字！"
  const EmptyTagAlert := "請輸入標籤名稱！"

  // ---------------------------------------------------------------------------
  // Company validation.

  /** The fields of the company model the form edits. */
  datatype CompanyModel = CompanyModel(tags: seq<string>, pictureSmall: string, pictureBig: string, description: string)

  datatype CompanyField = Tags | PictureSmall | PictureBig | Description

  /** The tags entry: more than 50 tags, else some tag of more than 50 characters. */
  function TagsError(tags: seq<string>): Option<string>
  {
    if |tags| > 50 then Some(TooManyTags)
    else if exists tag | tag in tags :: |tag| > 50 then Some(TagTooLong)
    else None
  }

  /** What the error map holds for one field once validation is done; None: no entry. */
  function CompanyFieldError(model: CompanyModel, isUrl: string -> bool, field: CompanyField): (e: Option<string>)
    ensures e.Some? ==> e.value in {TooManyTags, TagTooLong, BadLink, DescriptionTooShort, DescriptionTooLong}
    ensures field == Description ==> (e.None? <==> 10 <= |model.description| <= 3000)
    ensures (field == PictureSmall && model.pictureSmall == "") || (field == PictureBig && model.pictureBig == "") ==> e.None?
    ensures field == PictureSmall ==> (e.Some? <==> model.pictureSmall != "" && !isUrl(model.pictureSmall))
    ensures field == PictureBig ==> (e.Some? <==> model.pictureBig != "" && !isUrl(model.pictureBig))
    ensures field == Description && |model.description| < 10 ==> e == Some(DescriptionTooShort)
    ensures field == Description && |model.description| > 3000 ==> e == Some(DescriptionTooLong)
  {
    match field
    case Tags => TagsError(model.tags)
    case PictureSmall =>
      if model.pictureSmall != "" && !isUrl(model.pictureSmall) then Some(BadLink) else None
    case PictureBig =>
      if model.pictureBig != "" && !isUrl(model.pictureBig) then Some(BadLink) else None
    case Description =>
      if |model.description| < 10 then Some(DescriptionTooShort)
      else if |model.description| > 3000 then Some(DescriptionTooLong)
      else None
  }

  /** The map m with the entry for key set when there is an error, and left alone otherwise. */
  function Put<K, V>(m: map<K, V>, key: K, error: Option<V>): map<K, V>
  {
    if error.Some? then m[key := error.value] else m
  }

  /** The whole error map, entry by entry in the order the fields are checked. */
  function CompanyErrors(model: CompanyModel, isUrl: string -> bool): (m: map<CompanyField, string>)
    ensures m == map[] <==> forall f: CompanyField :: CompanyFieldError(model, isUrl, f).None?
    ensures forall f | f in m :: CompanyFieldError(model, isUrl, f) == Some(m[f])
  {
    var m := Put(map[], Tags, CompanyFieldError(model, isUrl, Tags));
    var m := Put(m, PictureSmall, CompanyFieldError(model, isUrl, PictureSmall));
    var m := Put(m, PictureBig, CompanyFieldError(model, isUrl, PictureBig));
    var m := Put(m, Description, CompanyFieldError(model, isUrl, Description));
    assert forall f: CompanyField :: f in m <==> CompanyFieldError(model, isUrl, f).Some?;
    m
  }

  /** The error map holds an entry exactly for the fields that have an error, with that error's message. */
  lemma CompanyErrorsByField(model: CompanyModel, isUrl: string -> bool, field: CompanyField)
    ensures field in CompanyErrors(model, isUrl) <==> CompanyFieldError(model, isUrl, field).Some?
    ensures field in CompanyErrors(model, isUrl) ==>
              CompanyErrors(model, isUrl)[field] == CompanyFieldError(model, isUrl, field).value
  {
  }

  /**
   * The tags guard of validateCompanyModel: one error for more than 50 tags, else a
   * loop that sets the tags error for each tag longer than 50 characters.
   */
  method CheckTags(tags: seq<string>) returns (error: map<CompanyField, string>)
    ensures error == Put(map[], Tags, TagsError(tags))
  {
    error := map[];
    if |tags| > 50 {
      error := error[Tags := TooManyTags];
    } else {
      var i := 0;
      while i < |tags|
        invariant 0 <= i <= |tags|
        invariant error.Keys <= {Tags}
        invariant Tags in error <==> exists j | 0 <= j < i :: |tags[j]| > 50
        invariant Tags in error ==> error[Tags] == TagTooLong
      {
        if |tags[i]| > 50 {
          error := error[Tags := TagTooLong];
        }
        i := i + 1;
      }
      if Tags in error {
        var j :| 0 <= j < |tags| && |tags[j]| > 50;
        assert tags[j] in tags;
      } else {
        assert forall tag | tag in tags :: |tag| <= 50;
      }
    }
  }

  /**
   * validateCompanyModel: fills the error map guard by guard and returns it when it is
   * non-empty, else nothing.
   */
  method ValidateCompanyModel(model: CompanyModel, isUrl: string -> bool) returns (r: Option<map<CompanyField, string>>)
    ensures r == if CompanyErrors(model, isUrl) == map[] then None else Some(CompanyErrors(model, isUrl))
  {
    var error := CheckTags(model.tags);
    ghost var afterTags := error;
    if model.pictureSmall != "" {
      if !isUrl(model.pictureSmall) {
        error := error[PictureSmall := BadLink];
      }
    }
    assert error == Put(afterTags, PictureSmall, CompanyFieldError(model, isUrl, PictureSmall));
    ghost var afterSmall := error;
    if model.pictureBig != "" {
      if !isUrl(model.pictureBig) {
        error := error[PictureBig := BadLink];
      }
    }
    assert error == Put(afterSmall, PictureBig, CompanyFieldError(model, isUrl, PictureBig));
    ghost var afterBig := error;
    if |model.description| < 10 {
      error := error[Description := DescriptionTooShort];
    } else if |model.description| > 3000 {
      error := error[Description := DescriptionTooLong];
    }
    assert error == Put(afterBig, Description, CompanyFieldError(model, isUrl, Description));
    assert error == CompanyErrors(model, isUrl);
    if |error| > 0 {
      r := Some(error);
    } else {
      assert error == map[];
      r := None;
    }
  }

  /** The tag rules: more than 50 tags is one error whatever the tags say; otherwise any tag over 50 characters. */
  lemma TagRules(model: CompanyModel, isUrl: string -> bool, i: nat)
    ensures |model.tags| > 50 ==> CompanyErrors(model, isUrl)[Tags] == TooManyTags
    ensures |model.tags| <= 50 && i < |model.tags| && |model.tags[i]| > 50
            ==> CompanyErrors(model, isUrl)[Tags] == TagTooLong
    ensures |model.tags| <= 50 && (forall tag | tag in model.tags :: |tag| <= 50)
            ==> Tags !in CompanyErrors(model, isUrl)
  {
    if |model.tags| <= 50 && i < |model.tags| && |model.tags[i]| > 50 {
      assert model.tags[i] in model.tags;
    }
  }

  /** An empty picture link is never checked; the description must have 10 to 3000 characters. */
  lemma PictureAndDescriptionRules(model: CompanyModel, isUrl: string -> bool)
    ensures model.pictureSmall == "" ==> PictureSmall !in CompanyErrors(model, isUrl)
    ensures model.pictureBig == "" ==> PictureBig !in CompanyErrors(model, isUrl)
    ensures Description in CompanyErrors(model, isUrl)
            <==> |model.description| < 10 || |model.description| > 3000
  {
  }

  // ---------------------------------------------------------------------------
  // Product validation.

  datatype ProductModel = ProductModel(productName: string, url: string, description: string)

  datatype ProductField = ProductName | Url

  /**
   * validateProductModel. The name guards form one chain; the description guard writes
   * under the productName key too and so replaces any name error.
   */
  function ValidateProductModel(model: ProductModel, isUrl: string -> bool): (r: Option<map<ProductField, string>>)
    ensures r.None? <==> 4 <= |model.productName| <= 255 && isUrl(model.url) && |model.description| <= 500
    ensures r.Some? ==> (ProductName in r.value <==> |model.productName| < 4 || |model.productName| > 255 || |model.description| > 500)
    ensures r.Some? ==> (Url in r.value <==> !isUrl(model.url))
    ensures r.Some? && ProductName in r.value ==>
              r.value[ProductName] ==
                if |model.description| > 500 then ProductDescriptionTooLong
                else if model.productName == "" then MissingProductName
                else if |model.productName| < 4 then ProductNameTooShort
                else ProductNameTooLong
    ensures r.Some? && Url in r.value ==> r.value[Url] == BadLink
  {
    var error: map<ProductField, string> := map[];
    var error :=
      if model.productName == "" then error[ProductName := MissingProductName]
      else if |model.productName| < 4 then error[ProductName := ProductNameTooShort]
      else if |model.productName| > 255 then error[ProductName := ProductNameTooLong]
      else error;
    var error := if !isUrl(model.url) then error[Url := BadLink] else error;
    var error :=
      if model.description != "" && |model.description| > 500 then error[ProductName := ProductDescriptionTooLong]
      else error;
    if |error| > 0 then Some(error) else (assert error == map[]; None)
  }

  // ---------------------------------------------------------------------------
  // Tag list edits.

  /** The characters String.prototype.trim removes: white space and line terminators. */
  predicate IsTrimmable(c: char)
  {
    c == '\t' || c == '\n' || c == '\U{000B}' || c == '\U{000C}' || c == '\r' || c == ' '
    || c == '\U{00A0}' || c == '\U{1680}' || ('\U{2000}' <= c <= '\U{200A}')
    || c == '\U{2028}' || c == '\U{2029}' || c == '\U{202F}' || c == '\U{205F}'
    || c == '\U{3000}' || c == '\U{FEFF}'
  }

  function TrimStart(s: string): (r: string)
    ensures |r| <= |s| && r == s[|s| - |r|..]
    ensures forall i | 0 <= i < |s| - |r| :: IsTrimmable(s[i])
    ensures r != [] ==> !IsTrimmable(r[0])
  {
    if s != [] && IsTrimmable(s[0]) then TrimStart(s[1..]) else s
  }

  function TrimEnd(s: string): (r: string)
    ensures |r| <= |s| && r == s[..|r|]
    ensures forall i | |r| <= i < |s| :: IsTrimmable(s[i])
    ensures r != [] ==> !IsTrimmable(r[|r| - 1])
  {
    if s != [] && IsTrimmable(s[|s| - 1]) then TrimEnd(s[..|s| - 1]) else s
  }

  /** String.prototype.trim: the slice of s left after removing trimmable characters at both ends. */
  function Trim(s: string): (r: string)
    ensures r == "" <==> forall i | 0 <= i < |s| :: IsTrimmable(s[i])
    ensures r != "" ==> !IsTrimmable(r[0]) && !IsTrimmable(r[|r| - 1])
  {
    TrimEnd(TrimStart(s))
  }

  /** Trim keeps one contiguous slice of s and removes only trimmable characters around it. */
  lemma TrimIsSlice(s: string)
    ensures |TrimStart(s)| <= |s| && |Trim(s)| <= |TrimStart(s)|
    ensures Trim(s) == s[|s| - |TrimStart(s)|..|s| - |TrimStart(s)| + |Trim(s)|]
    ensures forall k | 0 <= k < |s| - |TrimStart(s)| :: IsTrimmable(s[k])
    ensures forall k | |s| - |TrimStart(s)| + |Trim(s)| <= k < |s| :: IsTrimmable(s[k])
  {
    var front := TrimStart(s);
    var t := TrimEnd(front);
    assert Trim(s) == t;
    SuffixPieces(s, front, t);
  }

  /** Cutting trimmable characters off a suffix of s leaves a slice of s with trimmable characters behind it. */
  lemma SuffixPieces(s: string, front: string, t: string)
    requires |front| <= |s| && front == s[|s| - |front|..]
    requires |t| <= |front| && t == front[..|t|]
    requires forall i | |t| <= i < |front| :: IsTrimmable(front[i])
    ensures t == s[|s| - |front|..|s| - |front| + |t|]
    ensures forall k | |s| - |front| + |t| <= k < |s| :: IsTrimmable(s[k])
  {
    var lo := |s| - |front|;
    assert s[lo..][..|t|] == s[lo..lo + |t|];
    forall k | lo + |t| <= k < |s| ensures IsTrimmable(s[k]) {
      assert s[k] == front[k - lo];
    }
  }

  ghost predicate NoDuplicates(s: seq<string>)
  {
    forall i, j | 0 <= i < j < |s| :: s[i] != s[j]
  }

  /** The position of the first occurrence of x in s, or |s| when x does not occur. */
  function FirstIndex(s: seq<string>, x: string): (k: nat)
    ensures k <= |s|
    ensures k < |s| <==> x in s
    ensures k < |s| ==> s[k] == x
    ensures forall j | 0 <= j < k :: s[j] != x
  {
    if s == [] || s[0] == x then 0 else 1 + FirstIndex(s[1..], x)
  }

  /** An element of a prefix first occurs in the whole sequence where it first occurs in the prefix. */
  lemma FirstIndexPrefix(s: seq<string>, n: nat, x: string)
    requires n <= |s| && x in s[..n]
    ensures FirstIndex(s, x) == FirstIndex(s[..n], x) < n
  {
    var a := FirstIndex(s[..n], x);
    var b := FirstIndex(s, x);
    assert s[a] == x;
    assert b <= a;
    assert s[..n][b] == x;
  }

  /** _.unique: the first occurrence of each element, in their original order. */
  function Unique(s: seq<string>): (r: seq<string>)
    ensures NoDuplicates(r)
    ensures forall x :: x in r <==> x in s
    ensures |r| <= |s|
    ensures KeepsFirstOccurrenceOrder(r, s)
  {
    if s == [] then []
    else
      var init := s[..|s| - 1];
      var u := Unique(init);
      var last := s[|s| - 1];
      assert forall x :: x in s <==> x in init || x == last by {
        assert s == init + [last];
      }
      UniqueOrderStep(s, u);
      if last in u then u else u + [last]
  }

  /** The elements of r appear in the order of their first occurrences in s. */
  ghost predicate KeepsFirstOccurrenceOrder(r: seq<string>, s: seq<string>)
  {
    forall i, j | 0 <= i < j < |r| :: FirstIndex(s, r[i]) < FirstIndex(s, r[j])
  }

  /**
   * The step of the order proof: elements of the prefix keep their relative first positions
   * in the whole sequence, and a last element new to the prefix first occurs after all of them.
   */
  lemma UniqueOrderStep(s: seq<string>, u: seq<string>)
    requires s != []
    requires forall x :: x in u <==> x in s[..|s| - 1]
    requires KeepsFirstOccurrenceOrder(u, s[..|s| - 1])
    ensures KeepsFirstOccurrenceOrder(u, s)
    ensures s[|s| - 1] !in u ==> KeepsFirstOccurrenceOrder(u + [s[|s| - 1]], s)
  {
    var init := s[..|s| - 1];
    var last := s[|s| - 1];
    forall i | 0 <= i < |u| ensures FirstIndex(s, u[i]) == FirstIndex(init, u[i]) < |init| {
      assert u[i] in u;
      FirstIndexPrefix(s, |s| - 1, u[i]);
    }
    if last !in u {
      assert last !in init;
      assert s[|s| - 1] == last;
      assert FirstIndex(s, last) == |s| - 1;
      var r := u + [last];
      forall i, j | 0 <= i < j < |r| ensures FirstIndex(s, r[i]) < FirstIndex(s, r[j]) {
        assert r[i] == u[i];
        if j < |u| {
          assert r[j] == u[j];
        }
      }
    }
  }

  /** A list without duplicates is its own _.unique. */
  lemma {:induction false} UniqueOfDuplicateFree(s: seq<string>)
    requires NoDuplicates(s)
    ensures Unique(s) == s
  {
    if s != [] {
      var init := s[..|s| - 1];
      var last := s[|s| - 1];
      assert init + [last] == s;
      forall i, j | 0 <= i < j < |init| ensures init[i] != init[j] {
        assert init[i] == s[i] && init[j] == s[j];
      }
      forall k | 0 <= k < |init| ensures init[k] != last {
        assert init[k] == s[k];
      }
      UniqueOfDuplicateFree(init);
    }
  }

  /** Adding a tag to a duplicate-free list appends it when new and changes nothing otherwise. */
  lemma AddToDuplicateFree(tags: seq<string>, tag: string)
    requires NoDuplicates(tags)
    ensures Unique(tags + [tag]) == if tag in tags then tags else tags + [tag]
  {
    assert (tags + [tag])[..|tags|] == tags;
    UniqueOfDuplicateFree(tags);
  }

  /** _.without: every occurrence of x removed, the other elements kept in order. */
  function Without(s: seq<string>, x: string): (r: seq<string>)
    ensures x !in r
    ensures forall y :: y != x ==> (y in r <==> y in s)
    ensures |r| <= |s|
  {
    if s == [] then []
    else (if s[0] == x then [] else [s[0]]) + Without(s[1..], x)
  }

  /** Removal works piecewise: the order of what is kept is the order of the input. */
  lemma {:induction false} WithoutConcat(a: seq<string>, b: seq<string>, x: string)
    ensures Without(a + b, x) == Without(a, x) + Without(b, x)
  {
    if a == [] {
      assert a + b == b;
    } else {
      assert (a + b)[0] == a[0];
      assert (a + b)[1..] == a[1..] + b;
      WithoutConcat(a[1..], b, x);
    }
  }

  /** Removal deletes every copy of x and keeps every copy of each other element. */
  lemma {:induction false} WithoutCounts(s: seq<string>, x: string)
    ensures multiset(Without(s, x)) == multiset(s)[x := 0]
  {
    if s != [] {
      var head := if s[0] == x then [] else [s[0]];
      assert s == [s[0]] + s[1..];
      assert multiset(s) == multiset([s[0]]) + multiset(s[1..]);
      assert multiset(Without(s, x)) == multiset(head) + multiset(Without(s[1..], x));
      WithoutCounts(s[1..], x);
    }
  }

  /** The form's state: the model being edited and the text of the tag input. */
  class CompanyEditForm {
    var model: CompanyModel
    var tagInput: string

    constructor (initial: CompanyModel)
      ensures model == initial && tagInput == ""
    {
      model := initial;
      tagInput := "";
    }

    /**
     * addNewTag: an input that trims to nothing raises the alert and leaves everything
     * as it was; otherwise the trimmed tag is appended, duplicates are dropped, and the
     * input is cleared.
     */
    method AddNewTag() returns (alert: Option<string>)
      modifies this
      ensures alert.Some? <==> Trim(old(tagInput)) == ""
      ensures alert.Some? ==> alert.value == EmptyTagAlert && model == old(model) && tagInput == old(tagInput)
      ensures alert.None? ==>
                model == old(model).(tags := Unique(old(model).tags + [Trim(old(tagInput))])) && tagInput == ""
      ensures alert.None? ==> Trim(old(tagInput)) in model.tags && NoDuplicates(model.tags)
    {
      var tag := Trim(tagInput);
      if tag == "" {
        alert := Some(EmptyTagAlert);
        return;
      }
      var tags := model.tags + [tag];
      assert tag in tags;
      model := model.(tags := Unique(tags));
      tagInput := "";
      alert := None;
    }

    /** The data-remove-tag handler: every occurrence of the tag is removed. */
    method RemoveTag(tag: string)
      modifies this`model
      ensures model == old(model).(tags := Without(old(model).tags, tag))
    {
      model := model.(tags := Without(model.tags, tag));
    }
  }
}
