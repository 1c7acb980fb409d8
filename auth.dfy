/**
 * The signed-in user's credential record and its persistence in one JSON
 * file (`auth.json` in the application's roaming directory).
 *
 * The file is modelled by `AuthFile`: whether it exists, and if so whether
 * it holds a saved record or text that does not parse as one.
 */
module Auth {
  import opened Wrappers
  import opened Structs

  datatype AuthState = AuthState(
    banned: bool,
    id: string,
    access_token: Option<string>,
    avatar: string,
    ingame_name: string,
    locale: string,
    platform: string,
    region: string,
    role: string)

  /** No identity at all: no token, not banned, every text field empty. */
  predicate IsBlank(a: AuthState) {
    && a.access_token.None?
    && !a.banned
    && a.id == "" && a.avatar == "" && a.ingame_name == ""
    && a.locale == "" && a.platform == "" && a.region == "" && a.role == ""
  }

  /** `AuthState::default()`. */
  function Default(): (a: AuthState)
    ensures IsBlank(a)
    ensures forall b :: IsBlank(b) ==> b == a
  {
    AuthState(false, "", None, "", "", "", "", "", "")
  }

  /** What `auth.json` holds when it exists. serde_json's conversion into
      `io::Error` tells the two kinds of unreadable text apart: input that
      ends too early (an empty file, cut-off JSON) is `UnexpectedEof`, any
      other syntax or data error is `InvalidData`. */
  datatype StoredFile =
    | Saved(state: AuthState)   // the pretty-printed JSON of a record
    | Truncated(text: string)   // text that ends before a record is complete
    | Malformed(text: string)   // any other text serde_json cannot read as one

  class AuthFile {
    /** `None` when `auth.json` does not exist. */
    var content: Option<StoredFile>
    /** Whether `File::create` on the path succeeds. */
    const writable: bool

    constructor (content: Option<StoredFile>, writable: bool)
      ensures this.content == content && this.writable == writable
    {
      this.content := content;
      this.writable := writable;
    }

    /** `save_to_file`: replaces the file with the record, or fails when the
        file cannot be created, leaving it as it was. */
    method SaveToFile(a: AuthState) returns (r: Result<(), IoFailure>)
      modifies this`content
      ensures r.Ok? <==> writable
      ensures r.Ok? ==> content == Some(Saved(a))
      ensures r.Err? ==> content == old(content) && r.error.kind == PermissionDenied
    {
      if !writable {
        return Err(IoFailure(PermissionDenied, "cannot create auth.json"));
      }
      content := Some(Saved(a));
      r := Ok(());
    }

    /** `read_from_file`: fails when the file is missing or does not parse. */
    method ReadFromFile() returns (r: Result<AuthState, IoFailure>)
      ensures content.None? ==> r.Err? && r.error.kind == NotFound
      ensures content.Some? && content.value.Truncated? ==> r.Err? && r.error.kind == UnexpectedEof
      ensures content.Some? && content.value.Malformed? ==> r.Err? && r.error.kind == InvalidData
      ensures content.Some? && content.value.Saved? ==> r == Ok(content.value.state)
    {
      if content.None? {
        return Err(IoFailure(NotFound, "auth.json does not exist"));
      }
      match content.value
      case Saved(a) =>
        r := Ok(a);
      case Truncated(text) =>
        r := Err(IoFailure(UnexpectedEof, "EOF while parsing auth.json"));
      case Malformed(text) =>
        r := Err(IoFailure(InvalidData, "auth.json is not a credential record"));
    }

    /** `setup`: the stored record if the file exists, otherwise the default
        record, which is saved first. */
    method Setup() returns (r: Result<AuthState, IoFailure>)
      modifies this`content
      ensures old(content).Some? ==> content == old(content)
      ensures old(content).Some? && old(content).value.Saved? ==> r == Ok(old(content).value.state)
      ensures old(content).Some? && old(content).value.Truncated? ==> r.Err? && r.error.kind == UnexpectedEof
      ensures old(content).Some? && old(content).value.Malformed? ==> r.Err? && r.error.kind == InvalidData
      ensures old(content).None? && writable ==> r == Ok(Default()) && content == Some(Saved(Default()))
      ensures old(content).None? && !writable ==> r.Err? && content.None?
    {
      if content.Some? {
        r := ReadFromFile();
      } else {
        var defaultAuth := Default();
        var saved := SaveToFile(defaultAuth);
        if saved.Err? {
          return Err(saved.error);
        }
        r := Ok(defaultAuth);
      }
    }

    /** Saving a record and reading the file back gives the same record. */
    method SaveThenRead(a: AuthState) returns (saved: Result<(), IoFailure>, read: Result<AuthState, IoFailure>)
      modifies this`content
      ensures saved.Ok? ==> read == Ok(a)
      ensures saved.Err? ==> content == old(content)
    {
      saved := SaveToFile(a);
      read := ReadFromFile();
    }
  }
}
