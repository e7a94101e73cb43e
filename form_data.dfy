/** The values held by the registration form: its nine text fields, its two
    file attachments, and the multipart payload the form posts on submit. */
module FormData {

  datatype Option<+T> = None | Some(value: T)

  /** An attached file. Its contents are opaque to the form: only its identity matters. */
  datatype File = File(handle: nat)

  /** The nine text inputs, by the `name` attribute each input carries. */
  datatype Field = Name | Email | Phone | Address | Age | Department | Designation | PlaceOfWork | Code

  /** The order in which the fields are appended to the submit payload. */
  const FieldOrder: seq<Field> := [Name, Email, Phone, Address, Age, Department, Designation, PlaceOfWork, Code]

  /** The key of a field, both in the form record and in the payload. */
  function FieldName(f: Field): string
  {
    match f
    case Name => "name"
    case Email => "email"
    case Phone => "phone"
    case Address => "address"
    case Age => "age"
    case Department => "department"
    case Designation => "designation"
    case PlaceOfWork => "placeOfWork"
    case Code => "code"
  }

  const ImageKey: string := "image"
  const SignatureKey: string := "signature"

  /** The position of a field in FieldOrder. */
  function Position(f: Field): (i: nat)
    ensures i < |FieldOrder| && FieldOrder[i] == f
  {
    match f
    case Name => 0
    case Email => 1
    case Phone => 2
    case Address => 3
    case Age => 4
    case Department => 5
    case Designation => 6
    case PlaceOfWork => 7
    case Code => 8
  }

  /** Fields are told apart by their keys, and no field key is an attachment key. */
  lemma FieldKeysDistinct(f: Field, g: Field)
    ensures FieldName(f) == FieldName(g) <==> f == g
    ensures FieldName(f) != ImageKey && FieldName(f) != SignatureKey
  {
  }

  /** No field is listed twice in FieldOrder. */
  lemma FieldOrderDistinct()
    ensures forall i, j :: 0 <= i < j < |FieldOrder| ==> FieldOrder[i] != FieldOrder[j]
  {
  }

  /** The form record: one string per field. */
  datatype Record = Record(name: string, email: string, phone: string, address: string, age: string,
                           department: string, designation: string, placeOfWork: string, code: string)
  {
    function Get(f: Field): string
    {
      match f
      case Name => name
      case Email => email
      case Phone => phone
      case Address => address
      case Age => age
      case Department => department
      case Designation => designation
      case PlaceOfWork => placeOfWork
      case Code => code
    }

    /** The record with one field replaced, as the spread update `{...formData, [name]: value}` builds it. */
    function With(f: Field, v: string): (r: Record)
      ensures r.Get(f) == v
      ensures forall g :: g != f ==> r.Get(g) == Get(g)
    {
      match f
      case Name => this.(name := v)
      case Email => this.(email := v)
      case Phone => this.(phone := v)
      case Address => this.(address := v)
      case Age => this.(age := v)
      case Department => this.(department := v)
      case Designation => this.(designation := v)
      case PlaceOfWork => this.(placeOfWork := v)
      case Code => this.(code := v)
    }
  }

  /** The record the form starts with and is reset to. */
  const EmptyRecord: Record := Record("", "", "", "", "", "", "", "", "")

  lemma EmptyRecordIsBlank()
    ensures forall f :: EmptyRecord.Get(f) == ""
  {
  }

  /** Two records that agree on every field are the same record. */
  lemma RecordExtensional(a: Record, b: Record)
    requires forall f :: a.Get(f) == b.Get(f)
    ensures a == b
  {
    assert a.Get(Name) == b.Get(Name) && a.Get(Email) == b.Get(Email) && a.Get(Phone) == b.Get(Phone);
    assert a.Get(Address) == b.Get(Address) && a.Get(Age) == b.Get(Age) && a.Get(Department) == b.Get(Department);
    assert a.Get(Designation) == b.Get(Designation) && a.Get(PlaceOfWork) == b.Get(PlaceOfWork) && a.Get(Code) == b.Get(Code);
  }

  /** One entry of a multipart payload: a key and a text or file value. */
  datatype Value = Text(text: string) | Blob(file: File)
  datatype Part = Part(key: string, value: Value)

  /** 1 when the attachment is present, 0 otherwise. */
  function Count(a: Option<File>): nat
  {
    if a.Some? then 1 else 0
  }

  function FieldParts(r: Record): seq<Part>
  {
    seq(|FieldOrder|, i requires 0 <= i < |FieldOrder| => Part(FieldName(FieldOrder[i]), Text(r.Get(FieldOrder[i]))))
  }

  function AttachmentParts(key: string, a: Option<File>): seq<Part>
  {
    if a.Some? then [Part(key, Blob(a.value))] else []
  }

  /** The payload handleSubmit posts: the nine fields in FieldOrder, each one even when
      empty, then the image, then the signature, each only when present. */
  function Payload(r: Record, image: Option<File>, signature: Option<File>): (ps: seq<Part>)
    ensures |ps| == |FieldOrder| + Count(image) + Count(signature)
    ensures forall i :: 0 <= i < |FieldOrder| ==>
      ps[i] == Part(FieldName(FieldOrder[i]), Text(r.Get(FieldOrder[i])))
    ensures image.Some? ==> ps[|FieldOrder|] == Part(ImageKey, Blob(image.value))
    ensures signature.Some? ==> ps[|ps| - 1] == Part(SignatureKey, Blob(signature.value))
    ensures forall i :: |FieldOrder| <= i < |ps| ==> ps[i].value.Blob?
  {
    FieldParts(r) + AttachmentParts(ImageKey, image) + AttachmentParts(SignatureKey, signature)
  }

  /** The position of the first part with the given key, or |ps| when there is none. */
  function FirstIndex(ps: seq<Part>, key: string): (k: nat)
    ensures k <= |ps|
    ensures k < |ps| ==> ps[k].key == key
    ensures forall j :: 0 <= j < k ==> ps[j].key != key
  {
    if ps == [] then 0
    else if ps[0].key == key then 0
    else 1 + FirstIndex(ps[1..], key)
  }

  /** What a multipart reader gets when it asks for a key: the first value under it. */
  function Lookup(ps: seq<Part>, key: string): Option<Value>
  {
    var k := FirstIndex(ps, key);
    if k < |ps| then Some(ps[k].value) else None
  }

  /** The text under a field's key; none if the key is missing or holds a file. */
  function TextField(ps: seq<Part>, f: Field): Option<string>
  {
    match Lookup(ps, FieldName(f))
    case Some(Text(t)) => Some(t)
    case _ => None
  }

  /** An attachment slot read back: a missing key is an absent file; a text under that key is malformed. */
  function FileSlot(ps: seq<Part>, key: string): Option<Option<File>>
  {
    match Lookup(ps, key)
    case None => Some(None)
    case Some(Blob(f)) => Some(Some(f))
    case Some(Text(_)) => None
  }

  /** The layout Payload promises, stated of an arbitrary sequence of parts. */
  ghost predicate LaidOut(ps: seq<Part>, r: Record, image: Option<File>, signature: Option<File>)
  {
    && |ps| == |FieldOrder| + Count(image) + Count(signature)
    && (forall i :: 0 <= i < |FieldOrder| ==> ps[i] == Part(FieldName(FieldOrder[i]), Text(r.Get(FieldOrder[i]))))
    && (image.Some? ==> ps[|FieldOrder|] == Part(ImageKey, Blob(image.value)))
    && (signature.Some? ==> ps[|ps| - 1] == Part(SignatureKey, Blob(signature.value)))
  }

  /** Looking a field's key up in a laid-out payload yields that field's value. */
  lemma LookupField(ps: seq<Part>, r: Record, image: Option<File>, signature: Option<File>, f: Field)
    requires LaidOut(ps, r, image, signature)
    ensures TextField(ps, f) == Some(r.Get(f))
  {
    var i := Position(f);
    var k := FirstIndex(ps, FieldName(f));
    assert ps[i].key == FieldName(f);
    forall j | 0 <= j < i
      ensures ps[j].key != FieldName(f)
    {
      FieldOrderDistinct();
      FieldKeysDistinct(FieldOrder[j], f);
    }
    assert k == i;
  }

  /** Looking up an attachment key in a laid-out payload yields exactly that attachment. */
  lemma LookupAttachments(ps: seq<Part>, r: Record, image: Option<File>, signature: Option<File>)
    requires LaidOut(ps, r, image, signature)
    ensures FileSlot(ps, ImageKey) == Some(image)
    ensures FileSlot(ps, SignatureKey) == Some(signature)
  {
  }

  /** The payload loses nothing: a receiver reading it by key gets back every field's
      value and both attachment slots. */
  lemma PayloadReadsBack(r: Record, image: Option<File>, signature: Option<File>, f: Field)
    ensures TextField(Payload(r, image, signature), f) == Some(r.Get(f))
    ensures FileSlot(Payload(r, image, signature), ImageKey) == Some(image)
    ensures FileSlot(Payload(r, image, signature), SignatureKey) == Some(signature)
  {
    var ps := Payload(r, image, signature);
    LookupField(ps, r, image, signature, f);
    LookupAttachments(ps, r, image, signature);
  }

  /** Distinct form states never produce the same payload. */
  lemma PayloadInjective(r1: Record, image1: Option<File>, signature1: Option<File>,
                         r2: Record, image2: Option<File>, signature2: Option<File>)
    requires Payload(r1, image1, signature1) == Payload(r2, image2, signature2)
    ensures r1 == r2 && image1 == image2 && signature1 == signature2
  {
    forall f | true
      ensures r1.Get(f) == r2.Get(f)
    {
      PayloadReadsBack(r1, image1, signature1, f);
      PayloadReadsBack(r2, image2, signature2, f);
    }
    RecordExtensional(r1, r2);
    PayloadReadsBack(r1, image1, signature1, Name);
    PayloadReadsBack(r2, image2, signature2, Name);
  }
}
