/** The sales-rep visit registration screen (ventas/app/visita/registrar.tsx):
    the client passed by navigation, the photo and video lists the rep builds
    up and prunes, the checks made before saving, and the visit sent. */
module VisitScreen {
  import opened Common

  /** The sales rep every visit is recorded for. */
  const VendedorId := 1

  /** The client id every visit is recorded against, whatever client the
      screen was opened for. */
  const HardcodedClienteId := 200

  datatype VisitState = Exitosa | Pendiente | Cancelada

  datatype MediaKind = Image | Video

  /** `MediaFile`. */
  datatype MediaFile = MediaFile(uri: string, kind: MediaKind, name: string, size: Option<int>)

  /** What the picker or the camera hands back for one file. */
  datatype Asset = Asset(uri: string, fileSize: Option<int>)

  /** The client passed to the screen. */
  datatype Cliente = Cliente(id: int, nombre: string)

  /** The outcome of `JSON.parse` on the navigation parameter. */
  datatype Parsed = ParsedClient(cliente: Cliente) | ParsedNull | Malformed

  /** `cliente`: no parameter, a `null` and text that is not JSON all leave
      the client missing; nothing is raised. */
  function ClienteFrom(clienteData: Option<string>, parsed: Parsed): (c: Option<Cliente>)
    ensures c.Some? <==> Truthy(clienteData) && parsed.ParsedClient?
    ensures c.Some? ==> c.value == parsed.cliente
  {
    if Truthy(clienteData) && parsed.ParsedClient? then Some(parsed.cliente) else None
  }

  /** `prev.filter((_, i) => i !== index)`: every element but the one at
      `index`, in order. */
  function RemoveAt<T>(s: seq<T>, index: int): (r: seq<T>)
    ensures 0 <= index < |s| ==> r == s[..index] + s[index + 1..]
    ensures !(0 <= index < |s|) ==> r == s
  {
    if s == [] then []
    else
      var rest := RemoveAt(s[1..], index - 1);
      if index == 0 then
        assert rest == s[1..];
        rest
      else
        assert 0 < index < |s| ==> s[1..][..index - 1] == s[1..index] && s[1..][index..] == s[index + 1..];
        [s[0]] + rest
  }

  /** Removing a just-appended element gives back the list before it. */
  lemma RemoveLastUndoesAppend<T>(s: seq<T>, x: T)
    ensures RemoveAt(s + [x], |s|) == s
  {
    assert (s + [x])[..|s|] == s;
  }

  lemma SplitAtMultiset<T>(s: seq<T>, index: int)
    requires 0 <= index < |s|
    ensures multiset(s[..index] + s[index + 1..]) + multiset{s[index]} == multiset(s)
  {
    assert s == s[..index] + ([s[index]] + s[index + 1..]);
  }

  /** Removing an element takes exactly one occurrence of it out and keeps
      everything else. */
  lemma RemoveAtMultiset<T>(s: seq<T>, index: int)
    requires 0 <= index < |s|
    ensures multiset(RemoveAt(s, index)) + multiset{s[index]} == multiset(s)
    ensures |RemoveAt(s, index)| == |s| - 1
  {
    SplitAtMultiset(s, index);
  }

  /** `media.map(m => m.uri)`. */
  function Uris(media: seq<MediaFile>): (r: seq<string>)
    ensures |r| == |media|
    ensures forall i :: 0 <= i < |media| ==> r[i] == media[i].uri
  {
    seq(|media|, i requires 0 <= i < |media| => media[i].uri)
  }

  /** The URIs sent follow the list: appending media appends their URIs,
      and removing one removes its URI. */
  lemma UrisFollowList(media: seq<MediaFile>, more: seq<MediaFile>, index: int)
    ensures Uris(media + more) == Uris(media) + Uris(more)
    ensures Uris(RemoveAt(media, index)) == RemoveAt(Uris(media), index)
  {
  }

  /** The name of a picked photo: `foto_<time>_<position>.jpg`. */
  function PhotoName(time: nat, index: nat): string
  {
    "foto_" + DecimalString(time) + "_" + DecimalString(index) + ".jpg"
  }

  /** The position of the first `_` in `s`, or `|s|` when there is none. */
  function FirstUnderscore(s: string): (k: nat)
    ensures k <= |s|
    ensures forall i :: 0 <= i < k ==> s[i] != '_'
    ensures k < |s| ==> s[k] == '_'
  {
    if s == [] || s[0] == '_' then 0 else 1 + FirstUnderscore(s[1..])
  }

  /** A run of digits followed by `_` ends at that `_`. */
  lemma {:induction false} FirstUnderscoreAfterDigits(digits: string, rest: string)
    requires forall i :: 0 <= i < |digits| ==> '0' <= digits[i] <= '9'
    ensures FirstUnderscore(digits + "_" + rest) == |digits|
    decreases |digits|
  {
    if digits != [] {
      assert (digits + "_" + rest)[1..] == digits[1..] + "_" + rest;
      FirstUnderscoreAfterDigits(digits[1..], rest);
    }
  }

  /** A photo name determines its position: the time's digits end at the
      first `_` after `foto_`, and the position follows it. */
  lemma PhotoNameIndex(t1: nat, i1: nat, t2: nat, i2: nat)
    requires PhotoName(t1, i1) == PhotoName(t2, i2)
    ensures i1 == i2
  {
    var a1, a2 := DecimalString(t1), DecimalString(t2);
    var b1, b2 := DecimalString(i1), DecimalString(i2);
    var x, y := PhotoName(t1, i1), PhotoName(t2, i2);
    assert x == "foto_" + a1 + "_" + b1 + ".jpg";
    assert y == "foto_" + a2 + "_" + b2 + ".jpg";
    assert x[5..] == a1 + "_" + (b1 + ".jpg");
    assert y[5..] == a2 + "_" + (b2 + ".jpg");
    FirstUnderscoreAfterDigits(a1, b1 + ".jpg");
    FirstUnderscoreAfterDigits(a2, b2 + ".jpg");
    assert |a1| == |a2|;
    assert x[6 + |a1|..|x| - 4] == b1;
    assert y[6 + |a2|..|y| - 4] == b2;
    DecimalStringInjective(i1, i2);
  }

  /** `nuevasFotos`: one image per picked asset, in order, each named after
      the clock reading taken for it (`times[i]`, as the name is built
      inside the `map`) and its position. */
  function NewPhotos(assets: seq<Asset>, times: seq<nat>): (r: seq<MediaFile>)
    requires |times| == |assets|
    ensures |r| == |assets|
    ensures forall i :: 0 <= i < |assets| ==>
      r[i] == MediaFile(assets[i].uri, Image, PhotoName(times[i], i), assets[i].fileSize)
  {
    seq(|assets|, i requires 0 <= i < |assets| =>
      MediaFile(assets[i].uri, Image, PhotoName(times[i], i), assets[i].fileSize))
  }

  /** Photos picked together get distinct names, whatever the clock read
      for each of them. */
  lemma NewPhotoNamesDistinct(assets: seq<Asset>, times: seq<nat>)
    requires |times| == |assets|
    ensures forall i, j :: 0 <= i < j < |assets| ==> NewPhotos(assets, times)[i].name != NewPhotos(assets, times)[j].name
  {
    forall i, j | 0 <= i < j < |assets|
      ensures NewPhotos(assets, times)[i].name != NewPhotos(assets, times)[j].name
    {
      if PhotoName(times[i], i) == PhotoName(times[j], j) {
        PhotoNameIndex(times[i], i, times[j], j);
      }
    }
  }

  /** What a `TextInput` with `maxLength` keeps of the text given to it: the
      text itself when it fits, otherwise its first `maxLength` characters. */
  function Capped(text: string, maxLength: nat): (r: string)
    ensures |r| <= maxLength && r <= text
    ensures |text| <= maxLength ==> r == text
    ensures |text| > maxLength ==> |r| == maxLength
  {
    text[..Min(|text|, maxLength)]
  }

  /** The `maxLength` of the contact-name and observations inputs. */
  const MaxNombreContacto: nat := 100
  const MaxObservaciones: nat := 500

  const NoClientMessage := "No se encontró información del cliente."
  const ObservacionesRequired := "Por favor añade observaciones sobre la visita."
  const ContactoRequired := "Por favor ingresa el nombre del contacto."
  const VisitSaved := "La visita se ha registrado exitosamente."

  /** The checks of `guardarVisita`, in order: a client, observations and
      a contact name. Saving goes ahead exactly when all are present. */
  function CheckVisit(clienteId: Option<string>, cliente: Option<Cliente>, observaciones: string, nombreContacto: string): (r: Option<string>)
    ensures r.None? <==> Truthy(clienteId) && cliente.Some? && Trim(observaciones) != "" && Trim(nombreContacto) != ""
    ensures r == Some(NoClientMessage) <==> !Truthy(clienteId) || cliente.None?
    ensures r == Some(ContactoRequired) ==> Trim(observaciones) != ""
  {
    if !Truthy(clienteId) || cliente.None? then Some(NoClientMessage)
    else if Trim(observaciones) == "" then Some(ObservacionesRequired)
    else if Trim(nombreContacto) == "" then Some(ContactoRequired)
    else None
  }

  /** The `data` sent to `registrarVisita`. */
  datatype VisitPayload = VisitPayload(
    vendedorId: int, clienteId: int, nombreContacto: string, observaciones: string,
    estado: VisitState, fotos: seq<string>, videos: seq<string>)

  /** The screen's state. */
  class VisitForm {
    var observaciones: string
    var nombreContacto: string
    var estado: VisitState
    var fotos: seq<MediaFile>
    var videos: seq<MediaFile>

    /** Every photo is an image and every video a video, and neither text
        is longer than its input allows. */
    ghost predicate Valid()
      reads this
    {
      |observaciones| <= MaxObservaciones && |nombreContacto| <= MaxNombreContacto
      && (forall i :: 0 <= i < |fotos| ==> fotos[i].kind == Image)
      && (forall i :: 0 <= i < |videos| ==> videos[i].kind == Video)
    }

    constructor()
      ensures Valid()
      ensures observaciones == "" && nombreContacto == "" && estado == Pendiente && fotos == [] && videos == []
    {
      observaciones, nombreContacto, estado := "", "", Pendiente;
      fotos, videos := [], [];
    }

    /** The observations input (`maxLength={500}`): the text is kept up to
        500 characters. */
    method SetObservaciones(text: string)
      requires Valid()
      modifies this
      ensures Valid()
      ensures observaciones == Capped(text, MaxObservaciones)
      ensures nombreContacto == old(nombreContacto) && estado == old(estado)
      ensures fotos == old(fotos) && videos == old(videos)
    {
      observaciones := Capped(text, MaxObservaciones);
    }

    /** The contact-name input (`maxLength={100}`): the text is kept up to
        100 characters. */
    method SetNombreContacto(text: string)
      requires Valid()
      modifies this
      ensures Valid()
      ensures nombreContacto == Capped(text, MaxNombreContacto)
      ensures observaciones == old(observaciones) && estado == old(estado)
      ensures fotos == old(fotos) && videos == old(videos)
    {
      nombreContacto := Capped(text, MaxNombreContacto);
    }

    method SetEstado(e: VisitState)
      requires Valid()
      modifies this
      ensures Valid()
      ensures estado == e && observaciones == old(observaciones) && nombreContacto == old(nombreContacto)
      ensures fotos == old(fotos) && videos == old(videos)
    {
      estado := e;
    }

    /** `seleccionarFotos`, given what the picker returned (nothing when
        permission was refused or the pick cancelled): the new photos go
        after the existing ones. `times` holds the clock reading taken for
        each picked asset. */
    method SeleccionarFotos(picked: Option<seq<Asset>>, times: seq<nat>)
      requires picked.Some? ==> |times| == |picked.value|
      requires Valid()
      modifies this
      ensures Valid()
      ensures picked.None? ==> fotos == old(fotos)
      ensures picked.Some? ==> fotos == old(fotos) + NewPhotos(picked.value, times)
      ensures videos == old(videos) && observaciones == old(observaciones)
      ensures nombreContacto == old(nombreContacto) && estado == old(estado)
    {
      if picked.Some? {
        fotos := fotos + NewPhotos(picked.value, times);
      }
    }

    /** `grabarVideo`, given what the camera returned: the video goes last. */
    method GrabarVideo(recorded: Option<Asset>, now: nat)
      requires Valid()
      modifies this
      ensures Valid()
      ensures recorded.None? ==> videos == old(videos)
      ensures recorded.Some? ==>
        videos == old(videos) + [MediaFile(recorded.value.uri, Video, "video_" + DecimalString(now) + ".mp4", recorded.value.fileSize)]
      ensures fotos == old(fotos) && observaciones == old(observaciones)
      ensures nombreContacto == old(nombreContacto) && estado == old(estado)
    {
      if recorded.Some? {
        videos := videos + [MediaFile(recorded.value.uri, Video, "video_" + DecimalString(now) + ".mp4", recorded.value.fileSize)];
      }
    }

    /** `eliminarFoto`. */
    method EliminarFoto(index: int)
      requires Valid()
      modifies this
      ensures Valid()
      ensures fotos == RemoveAt(old(fotos), index)
      ensures videos == old(videos) && observaciones == old(observaciones)
      ensures nombreContacto == old(nombreContacto) && estado == old(estado)
    {
      fotos := RemoveAt(fotos, index);
    }

    /** `eliminarVideo`. */
    method EliminarVideo(index: int)
      requires Valid()
      modifies this
      ensures Valid()
      ensures videos == RemoveAt(old(videos), index)
      ensures fotos == old(fotos) && observaciones == old(observaciones)
      ensures nombreContacto == old(nombreContacto) && estado == old(estado)
    {
      videos := RemoveAt(videos, index);
    }

    /** `guardarVisita`, given the route's client id, the parsed client and
        what `registrarVisita` would report (nothing on success, else the
        error's message). A failed check sends nothing; otherwise one visit
        is sent with trimmed text, the fixed rep and client ids, and the
        media URIs in list order. */
    method GuardarVisita(clienteId: Option<string>, cliente: Option<Cliente>, failure: Option<string>)
      returns (alert: string, sent: seq<VisitPayload>)
      requires Valid()
      ensures CheckVisit(clienteId, cliente, observaciones, nombreContacto).Some? ==>
        alert == CheckVisit(clienteId, cliente, observaciones, nombreContacto).value && sent == []
      ensures CheckVisit(clienteId, cliente, observaciones, nombreContacto).None? ==>
        sent == [VisitPayload(VendedorId, HardcodedClienteId, Trim(nombreContacto), Trim(observaciones), estado, Uris(fotos), Uris(videos))]
        && alert == (if failure.None? then VisitSaved else "No se pudo registrar la visita: " + failure.value)
      ensures forall v :: v in sent ==>
        |v.nombreContacto| <= MaxNombreContacto && |v.observaciones| <= MaxObservaciones
    {
      var invalid := CheckVisit(clienteId, cliente, observaciones, nombreContacto);
      if invalid.Some? {
        return invalid.value, [];
      }
      var data := VisitPayload(VendedorId, HardcodedClienteId, Trim(nombreContacto), Trim(observaciones), estado, Uris(fotos), Uris(videos));
      sent := [data];
      if failure.None? {
        alert := VisitSaved;
      } else {
        alert := "No se pudo registrar la visita: " + failure.value;
      }
    }
  }

  /** Two forms filled in alike send the same visit, whichever clients
      they were opened for. */
  method VisitIgnoresOpenedClient(first: Cliente, second: Cliente, observaciones: string, contacto: string)
    returns (a: seq<VisitPayload>, b: seq<VisitPayload>)
    requires Trim(Capped(observaciones, MaxObservaciones)) != "" && Trim(Capped(contacto, MaxNombreContacto)) != ""
    ensures |a| == 1 && a == b && a[0].clienteId == HardcodedClienteId
  {
    var form := new VisitForm();
    form.SetObservaciones(observaciones);
    form.SetNombreContacto(contacto);
    var alertA, alertB;
    alertA, a := form.GuardarVisita(Some("1"), Some(first), None);
    alertB, b := form.GuardarVisita(Some("2"), Some(second), None);
  }
}
