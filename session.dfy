// The database session of PicsouModelService: whether a database is open,
// the file it belongs to, and whether it has unsaved changes. File access
// and JSON parsing are given as the success flags they would report.
module Session {
  import opened Ledger

  /** The open database: one created in memory, or one installed from a
      file, whose read may have failed part way. */
  datatype Database =
    | Created(name: string, description: string)
    | Loaded(source: string, readOk: bool)

  class ModelService {
    var db: Option<Database>
    var filename: string
    var isDbModified: bool
    /** Whether the open database's `modified` signal is connected to
        NotifyUi; only that connection ever marks the session modified. */
    ghost var connected: bool

    /** With no database open there is no file name and no connection. */
    ghost predicate Valid()
      reads this
    {
      db.None? ==> filename == [] && !connected
    }

    constructor ()
      ensures Valid()
      ensures db.None? && filename == [] && !isDbModified && !connected
    {
      db, filename, isDbModified := None, [], false;
      connected := false;
    }

    function IsDbOpened(): (r: bool)
      reads this
      ensures r <==> db.Some?
    {
      db != None
    }

    method NewDb(filename: string, name: string, description: string) returns (success: bool)
      requires Valid()
      modifies this
      ensures Valid()
      ensures success <==> old(db).None?
      ensures success ==> db == Some(Created(name, description)) && this.filename == filename && isDbModified && connected
      ensures !success ==> db == old(db) && this.filename == old(this.filename) && isDbModified == old(isDbModified)
      ensures !success ==> connected == old(connected)
    {
      if IsDbOpened() {
        return false;
      }
      db := Some(Created(name, description));
      this.filename := filename;
      isDbModified := true;
      connected := true;
      return true;
    }

    /** opens is whether the file opens for reading, parses whether its
        bytes are a JSON document, readOk whether the database accepts that
        document. The database is installed before it is read, so a
        rejected document still leaves a database open, under the old file
        name, and never connected to NotifyUi. */
    method OpenDb(filename: string, opens: bool, parses: bool, readOk: bool) returns (success: bool)
      requires Valid()
      modifies this
      ensures Valid()
      ensures success <==> old(db).None? && opens && parses && readOk
      ensures db == if old(db).None? && opens && parses then Some(Loaded(filename, readOk)) else old(db)
      ensures this.filename == if success then filename else old(this.filename)
      ensures isDbModified == old(isDbModified)
      ensures connected <==> success || old(connected)
    {
      if IsDbOpened() {
        return false;
      }
      if !opens {
        return false;
      }
      if !parses {
        return false;
      }
      db := Some(Loaded(filename, readOk));
      if !readOk {
        return false;
      }
      this.filename := filename;
      connected := true;
      return true;
    }

    /** writeOk is whether the database serialises, opens whether the file
        opens for writing, complete whether every byte was written. */
    method SaveDbAs(filename: string, writeOk: bool, opens: bool, complete: bool) returns (success: bool)
      requires Valid()
      modifies this
      ensures Valid()
      ensures success <==> old(db).Some? && writeOk && opens && complete
      ensures db == old(db)
      ensures success ==> this.filename == filename && !isDbModified
      ensures !success ==> this.filename == old(this.filename) && isDbModified == old(isDbModified)
      ensures connected == old(connected)
    {
      if !IsDbOpened() {
        return false;
      }
      if !writeOk {
        return false;
      }
      if !opens {
        return false;
      }
      if !complete {
        return false;
      }
      this.filename := filename;
      isDbModified := false;
      return true;
    }

    /** Saves under the current file name. */
    method SaveDb(writeOk: bool, opens: bool, complete: bool) returns (success: bool)
      requires Valid()
      modifies this
      ensures Valid()
      ensures success <==> old(db).Some? && writeOk && opens && complete
      ensures db == old(db) && filename == old(filename)
      ensures isDbModified == if success then false else old(isDbModified)
      ensures connected == old(connected)
    {
      success := SaveDbAs(filename, writeOk, opens, complete);
    }

    method CloseDb() returns (success: bool)
      requires Valid()
      modifies this
      ensures Valid()
      ensures success <==> old(db).Some?
      ensures db.None? && !connected
      ensures success ==> filename == [] && !isDbModified
      ensures !success ==> filename == old(filename) && isDbModified == old(isDbModified)
    {
      success := false;
      if IsDbOpened() {
        filename := [];
        isDbModified := false;
        db := None;
        connected := false;
        success := true;
      }
    }

    /** The slot of the database's `modified` signal: marks the session as
        having unsaved changes. It runs only through the connection made by
        a successful NewDb or OpenDb. */
    method NotifyUi()
      requires Valid() && connected
      modifies this
      ensures Valid()
      ensures isDbModified
      ensures db == old(db) && filename == old(filename) && connected
    {
      isDbModified := true;
    }

    /** terminate(), and the destructor: close whatever is open. */
    method Terminate()
      requires Valid()
      modifies this
      ensures Valid()
      ensures db.None? && filename == [] && !connected
      ensures isDbModified == if old(db).Some? then false else old(isDbModified)
    {
      var _ := CloseDb();
    }
  }

  /** A document that opens and parses but that the database rejects
      leaves the session with a database open and unconnected, so changes
      to it never mark the session modified; opening again, or creating a
      new one, fails until the session is closed. */
  method RetryAfterRejectedRead(s: ModelService, filename: string, name: string, description: string)
    returns (first: bool, second: bool, created: bool, closed: bool, third: bool, ghost connectedAfterReject: bool)
    requires s.Valid() && s.db.None?
    modifies s
    ensures !first && !second && !created && closed && third
    ensures !connectedAfterReject
    ensures s.db == Some(Loaded(filename, true)) && s.filename == filename && s.connected
  {
    first := s.OpenDb(filename, true, true, false);
    connectedAfterReject := s.connected;
    second := s.OpenDb(filename, true, true, true);
    created := s.NewDb(filename, name, description);
    closed := s.CloseDb();
    third := s.OpenDb(filename, true, true, true);
  }

  /** A new database is unsaved until it is saved; a change notified after
      the save makes it unsaved again. */
  method NewSaveModify(s: ModelService, filename: string, name: string, description: string)
    returns (created: bool, dirtyAfterNew: bool, saved: bool, dirtyAfterSave: bool, dirtyAfterNotify: bool)
    requires s.Valid() && s.db.None?
    modifies s
    ensures created && dirtyAfterNew && saved && !dirtyAfterSave && dirtyAfterNotify
    ensures s.db == Some(Created(name, description)) && s.filename == filename
  {
    created := s.NewDb(filename, name, description);
    dirtyAfterNew := s.isDbModified;
    saved := s.SaveDb(true, true, true);
    dirtyAfterSave := s.isDbModified;
    s.NotifyUi();
    dirtyAfterNotify := s.isDbModified;
  }
}
