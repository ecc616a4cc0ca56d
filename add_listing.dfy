/** The three-step "add listing" wizard: book details, then pricing and
    condition, then an optional photo, then publishing, which uploads the
    photo (if any) and inserts one listing record. */
module AddListing {
  import opened Common

  const Categories: seq<string> :=
    ["Engineering", "Arts", "Science", "Commerce", "Competitive Exams", "Literature", "Other"]
  const Conditions: seq<string> := ["New", "Like New", "Good", "Fair", "Poor"]

  const FirstStep := 1
  const LastStep := 3

  // ----------------------------------------------------------------- form

  /** The form state. The price is the text of the price input; turning it
      into a number is left to the backend record (see `NewListing`). */
  datatype ListingForm = ListingForm(
    title: string,
    author: string,
    price: string,
    isSwap: bool,
    condition: string,
    category: string,
    description: string)

  const NewForm := ListingForm("", "", "", false, "Good", "Other", "")

  /** The names `updateForm` is called with, and the values it stores. */
  datatype Field = Title | Author | Price | IsSwap | Condition | Category | Description
  datatype Value = Text(text: string) | Flag(flag: bool)

  /** The switch stores a flag; every other input stores text. */
  predicate Fits(field: Field, value: Value) {
    if field == IsSwap then value.Flag? else value.Text?
  }

  function Get(form: ListingForm, field: Field): (v: Value)
    ensures Fits(field, v)
  {
    match field
    case Title => Text(form.title)
    case Author => Text(form.author)
    case Price => Text(form.price)
    case IsSwap => Flag(form.isSwap)
    case Condition => Text(form.condition)
    case Category => Text(form.category)
    case Description => Text(form.description)
  }

  /** `updateForm(field, value)`: the named field takes the value and every
      other field keeps its old value. */
  function Set(form: ListingForm, field: Field, value: Value): (r: ListingForm)
    requires Fits(field, value)
    ensures Get(r, field) == value
    ensures forall g :: g != field ==> Get(r, g) == Get(form, g)
  {
    match field
    case Title => form.(title := value.text)
    case Author => form.(author := value.text)
    case Price => form.(price := value.text)
    case IsSwap => form.(isSwap := value.flag)
    case Condition => form.(condition := value.text)
    case Category => form.(category := value.text)
    case Description => form.(description := value.text)
  }

  /** The inputs rendered on each step, hence the only fields the user can
      change there: details on step 1; swap switch, condition and (unless
      swap-only) price on step 2; none on step 3. */
  predicate Editable(step: int, form: ListingForm, field: Field) {
    || (step == 1 && field in {Title, Author, Category, Description})
    || (step == 2 && (field == IsSwap || field == Condition || (field == Price && !form.isSwap)))
  }

  /** The enabling condition of the "Next" button on a step. */
  predicate CanAdvance(step: int, form: ListingForm) {
    || (step == 1 && form.title != "" && form.author != "")
    || (step == 2 && (form.isSwap || form.price != ""))
  }

  // ------------------------------------------------------- photo location

  /** `name.split(".").pop()`: the text after the last dot, or the whole
      name when it has no dot. */
  function Extension(name: string): (ext: string)
    ensures '.' !in ext
    ensures EndsAfterDot(name, ext)
    decreases |name|
  {
    if name == [] || name[|name| - 1] == '.' then []
    else Extension(name[..|name| - 1]) + [name[|name| - 1]]
  }

  /** `ext` ends `name` and is either all of it or preceded by a dot. */
  predicate EndsAfterDot(name: string, ext: string) {
    && |ext| <= |name| && name[|name| - |ext|..] == ext
    && (|ext| < |name| ==> name[|name| - |ext| - 1] == '.')
  }

  /** Whatever precedes the last dot, the extension is what follows it. */
  lemma {:induction false} ExtensionAfterDot(prefix: string, ext: string)
    requires '.' !in ext
    ensures Extension(prefix + "." + ext) == ext
    decreases |ext|
  {
    var name := prefix + "." + ext;
    if ext != [] {
      var init := ext[..|ext| - 1];
      assert name[..|name| - 1] == prefix + "." + init;
      assert name[|name| - 1] == ext[|ext| - 1];
      ExtensionAfterDot(prefix, init);
      assert init + [ext[|ext| - 1]] == ext;
    }
  }

  function DigitChar(d: nat): char
    requires d < 10
  {
    ('0' as int + d) as char
  }

  /** The decimal text of a number, as a template literal renders it. */
  function Decimal(n: nat): (s: string)
    ensures s != []
    ensures forall i :: 0 <= i < |s| ==> '0' <= s[i] <= '9'
    decreases n
  {
    if n < 10 then [DigitChar(n)] else Decimal(n / 10) + [DigitChar(n % 10)]
  }

  /** Reads a string of decimal digits back as a number. */
  function ParseDecimal(s: string): nat
    requires forall i :: 0 <= i < |s| ==> '0' <= s[i] <= '9'
    decreases |s|
  {
    if s == [] then 0
    else ParseDecimal(s[..|s| - 1]) * 10 + (s[|s| - 1] as int - '0' as int)
  }

  /** The decimal text of a timestamp determines the timestamp. */
  lemma {:induction false} DecimalRoundTrip(n: nat)
    ensures ParseDecimal(Decimal(n)) == n
    decreases n
  {
    if n >= 10 {
      DecimalRoundTrip(n / 10);
      var s := Decimal(n);
      assert s[..|s| - 1] == Decimal(n / 10);
    }
  }

  /** The storage path of an uploaded photo: `<user id>/<timestamp>.<ext>`. */
  function ImagePath(userId: string, now: nat, fileName: string): string {
    userId + "/" + Decimal(now) + "." + Extension(fileName)
  }

  /** The path lies in the uploader's own folder. */
  lemma ImagePathFolder(userId: string, now: nat, fileName: string)
    ensures |userId| + 1 <= |ImagePath(userId, now, fileName)|
    ensures ImagePath(userId, now, fileName)[..|userId| + 1] == userId + "/"
  {
    var rest := Decimal(now) + "." + Extension(fileName);
    assert ImagePath(userId, now, fileName) == (userId + "/") + rest;
  }

  /** The path keeps the photo's extension. */
  lemma ImagePathExtension(userId: string, now: nat, fileName: string)
    ensures Extension(ImagePath(userId, now, fileName)) == Extension(fileName)
  {
    ExtensionAfterDot(userId + "/" + Decimal(now), Extension(fileName));
  }

  /** Between the folder and the extension, the path holds the decimal
      upload time (which reads back as the clock value, `DecimalRoundTrip`). */
  lemma ImagePathStamp(userId: string, now: nat, fileName: string)
    ensures var path, ext := ImagePath(userId, now, fileName), Extension(fileName);
      && |userId| + 1 <= |path| - |ext| - 1
      && path[|userId| + 1..|path| - |ext| - 1] == Decimal(now)
  {
    var folder, stamp, tail := userId + "/", Decimal(now), "." + Extension(fileName);
    assert ImagePath(userId, now, fileName) == folder + stamp + tail;
    MiddleOfThree(folder, stamp, tail);
  }

  lemma MiddleOfThree(a: string, b: string, c: string)
    ensures (a + b + c)[|a|..|a| + |b|] == b
  {
  }

  // ---------------------------------------------------------------- record

  /** The record inserted into the listings table. `price` holds the price
      text that is parsed into a number; it is absent for swap-only books. */
  datatype BookRecord = BookRecord(
    userId: string,
    title: string,
    author: string,
    price: Option<string>,
    isSwap: bool,
    condition: string,
    category: string,
    description: string,
    imageUrl: Option<string>)

  /** The listing invariant the form maintains: no price exactly when the
      book is offered for swap. */
  predicate PriceMatchesSwap(r: BookRecord) {
    r.price.None? <==> r.isSwap
  }

  /** The record `handleSubmit` inserts for a form. */
  function NewListing(userId: string, form: ListingForm, imageUrl: Option<string>): (r: BookRecord)
    ensures PriceMatchesSwap(r) && r.isSwap == form.isSwap
    ensures !form.isSwap ==> r.price == Some(form.price)
    ensures r.userId == userId && r.imageUrl == imageUrl
    ensures r.title == form.title && r.author == form.author && r.description == form.description
    ensures r.condition == form.condition && r.category == form.category
  {
    BookRecord(userId, form.title, form.author,
      if form.isSwap then None else Some(form.price),
      form.isSwap, form.condition, form.category, form.description, imageUrl)
  }

  // ---------------------------------------------------------------- wizard

  datatype File = File(name: string)

  /** The backend calls `handleSubmit` issues, in order. */
  datatype Call = Upload(path: string) | InsertBook(record: BookRecord)

  /** `Published` shows "Listed!" and navigates to the marketplace; `Failed`
      shows the error's message; `Skipped` is the early return without a
      signed-in user. */
  datatype SubmitOutcome = Skipped | Published | Failed(message: string)

  /** The backend calls made by one submission and how it ended. */
  datatype Submission = Submission(calls: seq<Call>, outcome: SubmitOutcome)

  /** What `handleSubmit` does for a signed-in user: upload the photo (if
      one was chosen) under the user's folder, stop on an upload error,
      otherwise insert the record, carrying the photo's URL if any. The
      reply of each backend call is a parameter: `uploadReply` for the
      upload, `publicUrl` for the URL the bucket reports for the uploaded
      path, `insertReply` for the insert; `now` is the clock. */
  function PlanSubmit(userId: string, form: ListingForm, imageFile: Option<File>, now: nat,
                      uploadReply: Reply<()>, publicUrl: string, insertReply: Reply<()>): (r: Submission)
    // a photo is uploaded first, under the uploader's folder
    ensures imageFile.Some? ==>
      |r.calls| >= 1 && r.calls[0] == Upload(ImagePath(userId, now, imageFile.value.name))
    // a failed upload aborts before the insert
    ensures imageFile.Some? && uploadReply.Err? ==>
      |r.calls| == 1 && r.outcome == Failed(uploadReply.message)
    // otherwise the last and only insert is the listing, with the photo URL
    // exactly when a photo was uploaded
    ensures imageFile.None? || uploadReply.Ok? ==>
      && |r.calls| == (if imageFile.Some? then 2 else 1)
      && r.calls[|r.calls| - 1] == InsertBook(NewListing(userId, form,
           if imageFile.Some? then Some(publicUrl) else None))
      && r.outcome == (if insertReply.Ok? then Published else Failed(insertReply.message))
    ensures r.outcome != Skipped
  {
    if imageFile.Some? && uploadReply.Err? then
      Submission([Upload(ImagePath(userId, now, imageFile.value.name))], Failed(uploadReply.message))
    else
      var uploads := if imageFile.Some? then [Upload(ImagePath(userId, now, imageFile.value.name))] else [];
      var record := NewListing(userId, form, if imageFile.Some? then Some(publicUrl) else None);
      Submission(uploads + [InsertBook(record)],
        if insertReply.Ok? then Published else Failed(insertReply.message))
  }

  /** A form that passed both "Next" buttons yields a complete, consistent
      record: title and author present, and a price text unless swap-only. */
  lemma PublishedRecordComplete(userId: string, form: ListingForm, imageFile: Option<File>, now: nat,
                                uploadReply: Reply<()>, publicUrl: string, insertReply: Reply<()>)
    requires form.title != "" && form.author != "" && (form.isSwap || form.price != "")
    ensures var r := PlanSubmit(userId, form, imageFile, now, uploadReply, publicUrl, insertReply);
      forall c :: c in r.calls && c.InsertBook? ==>
        && c.record.userId == userId && c.record.title != "" && c.record.author != ""
        && PriceMatchesSwap(c.record)
        && (c.record.price.Some? ==> c.record.price.value != "")
  {
  }

  class ListingWizard {
    var step: int
    var form: ListingForm
    var imageFile: Option<File>
    var loading: bool

    /** The step is 1, 2 or 3, and every step past the first was reached
        through an enabled "Next" whose condition still holds. */
    ghost predicate Valid()
      reads this
    {
      && FirstStep <= step <= LastStep
      && (step >= 2 ==> form.title != "" && form.author != "")
      && (step == 3 ==> form.isSwap || form.price != "")
    }

    constructor ()
      ensures Valid()
      ensures step == FirstStep && form == NewForm && imageFile == None && !loading
      ensures form.title == "" && form.author == "" && form.price == "" && form.description == ""
      ensures !form.isSwap && form.condition == "Good" && form.category == "Other"
    {
      step := FirstStep;
      form := NewForm;
      imageFile := None;
      loading := false;
    }

    /** An input on the current step changes its field and nothing else. */
    method UpdateForm(field: Field, value: Value)
      requires Valid()
      requires Fits(field, value) && Editable(step, form, field)
      modifies this`form
      ensures Valid()
      ensures form == Set(old(form), field, value)
      ensures forall g :: g != field ==> Get(form, g) == Get(old(form), g)
    {
      form := Set(form, field, value);
    }

    /** The "Next" button: moves one step forward exactly when it is enabled
        (it is not rendered on the last step). */
    method Next() returns (moved: bool)
      requires Valid()
      modifies this`step
      ensures Valid()
      ensures moved <==> CanAdvance(old(step), form)
      ensures step == if moved then old(step) + 1 else old(step)
    {
      moved := CanAdvance(step, form);
      if moved {
        step := step + 1;
      }
    }

    /** The "Back" button: steps 2 and 3 go back one step unconditionally
        (it is not rendered on the first step). */
    method Back()
      requires Valid()
      modifies this`step
      ensures Valid()
      ensures step == if old(step) > FirstStep then old(step) - 1 else old(step)
    {
      if step > FirstStep {
        step := step - 1;
      }
    }

    /** The file input: a chosen file replaces the previous one; an empty
        selection keeps it. */
    method ChooseImage(file: Option<File>)
      requires Valid()
      modifies this`imageFile
      ensures Valid()
      ensures imageFile == if file.Some? then file else old(imageFile)
    {
      if file.Some? {
        imageFile := file;
      }
    }

    /** `handleSubmit`, from the "Publish" button of the last step: nothing
        without a user; otherwise loading is on while `PlanSubmit` runs and
        off afterwards. */
    method Submit(user: Option<string>, now: nat, uploadReply: Reply<()>, publicUrl: string, insertReply: Reply<()>)
      returns (calls: seq<Call>, outcome: SubmitOutcome)
      requires Valid() && step == LastStep
      modifies this`loading
      ensures Valid()
      ensures user.None? ==> calls == [] && outcome == Skipped && loading == old(loading)
      ensures user.Some? ==>
        && !loading
        && Submission(calls, outcome) == PlanSubmit(user.value, form, imageFile, now, uploadReply, publicUrl, insertReply)
    {
      calls := [];
      if user.None? {
        outcome := Skipped;
        return;
      }
      loading := true;
      var imageUrl: Option<string> := None;
      if imageFile.Some? {
        var path := ImagePath(user.value, now, imageFile.value.name);
        calls := [Upload(path)];
        if uploadReply.Err? {
          outcome := Failed(uploadReply.message);
          loading := false;
          return;
        }
        imageUrl := Some(publicUrl);
      }
      var record := NewListing(user.value, form, imageUrl);
      calls := calls + [InsertBook(record)];
      if insertReply.Err? {
        outcome := Failed(insertReply.message);
      } else {
        outcome := Published;
      }
      loading := false;
    }
  }
}
