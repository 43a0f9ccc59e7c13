/** What a Baota panel's answer to a call is taken for: internal/baota.go, lines 153-243. */
module PanelReply {
  import opened Text
  import opened Options
  import opened JsonPaths

  /** What comes back from a call: nothing usable, or a status and a body. */
  datatype Response = Lost | Http(status: nat, body: string)

  /** The result of the call: none, errBaotaAlreadyExists, or another error. */
  datatype Reply = Success | AlreadyExists | Error

  /** json.Unmarshal into an object; None is its error. */
  type Parser = string -> Option<Fields>

  const UNSAID := "宝塔 API 返回 status=false"

  /** baotaStatusOK */
  predicate StatusOk(v: Json) {
    match v
    case Bool(b) => b
    case Num(n) => n != 0.0
    case Str(s) => Trim(Lower(s)) == "true" || Trim(Lower(s)) == "1" || Trim(Lower(s)) == "yes"
    case _ => true
  }

  function Message(m: Fields): string {
    if "msg" in m && m["msg"].Str? && m["msg"].s != "" then m["msg"].s else UNSAID
  }

  predicate SaysExists(message: string) {
    Contains(message, "已存在") || Contains(message, "同名") || Contains(Lower(message), "exist") || Contains(message, "重复")
  }

  /** interpretBaotaJSONBody */
  function Interpret(parse: Parser, body: string): Reply {
    var text := Trim(body);
    if text == "" || (text[0] != '{' && text[0] != '[') then Success
    else match parse(text)
      case None => Success
      case Some(m) =>
        if "status" !in m || StatusOk(m["status"]) then Success
        else if SaysExists(Message(m)) then AlreadyExists
        else Error
  }

  /** The end of doBaotaPOST. */
  function ReplyTo(parse: Parser, r: Response): Reply {
    match r
    case Lost => Error
    case Http(status, body) => if status >= 400 then Error else Interpret(parse, body)
  }

  // ---------------------------------------------------------------- kinds of answers

  /** The body is an object that has a status. */
  predicate Stated(parse: Parser, body: string) {
    var text := Trim(body);
    text != "" && (text[0] == '{' || text[0] == '[') && parse(text).Some? && "status" in parse(text).value
  }

  /** An accepted answer says that the call worked, says nothing about it, or complains in words
      that are read as "already there". */
  datatype Kind = Confirmed | Silent | Complaint

  predicate IsKind(parse: Parser, r: Response, k: Kind) {
    && r.Http? && r.status < 400
    && match k
       case Silent => !Stated(parse, r.body)
       case Confirmed => Stated(parse, r.body) && StatusOk(parse(Trim(r.body)).value["status"])
       case Complaint =>
         && Stated(parse, r.body) && !StatusOk(parse(Trim(r.body)).value["status"])
         && SaysExists(Message(parse(Trim(r.body)).value))
  }

  /** An answer is accepted exactly when it is of one of the three kinds, and only a complaint is
      taken for "already there". */
  lemma AcceptedKinds(parse: Parser, r: Response)
    ensures ReplyTo(parse, r) != Error <==> exists k :: IsKind(parse, r, k)
    ensures ReplyTo(parse, r) == AlreadyExists <==> IsKind(parse, r, Complaint)
    ensures forall j, k :: IsKind(parse, r, j) && IsKind(parse, r, k) ==> j == k
  {
    hide StatusOk, SaysExists, Message, Trim;
    if ReplyTo(parse, r) != Error {
      var k := if !Stated(parse, r.body) then Silent
               else if StatusOk(parse(Trim(r.body)).value["status"]) then Confirmed else Complaint;
      assert IsKind(parse, r, k);
    }
  }

  /** What a stated status says: false, 0, and texts other than "true", "1" and "yes" up to case and
      white space around them are failures. */
  lemma StatusMeans(v: Json)
    ensures !StatusOk(v) <==>
              || v == Bool(false) || v == Num(0.0)
              || (v.Str? && Trim(Lower(v.s)) != "true" && Trim(Lower(v.s)) != "1" && Trim(Lower(v.s)) != "yes")
  {
    hide Trim;
  }

  /** An object with a failure status is an error exactly when its message, or the stock message in
      place of a missing, empty or other one, has none of the four words. */
  lemma FailureMeans(parse: Parser, status: nat, body: string, m: Fields, message: string)
    requires status < 400 && Trim(body) != "" && Trim(body)[0] in "{["
    requires parse(Trim(body)) == Some(m) && "status" in m && !StatusOk(m["status"])
    requires if "msg" in m && m["msg"].Str? && m["msg"].s != "" then m["msg"] == Str(message)
             else message == "宝塔 API 返回 status=false"
    ensures ReplyTo(parse, Http(status, body)) == Error <==>
              && !Contains(message, "已存在") && !Contains(message, "同名") && !Contains(message, "重复")
              && !Contains(Lower(message), "exist")
    ensures ReplyTo(parse, Http(status, body)) != Success
  {
    hide Trim, Contains, StatusOk, Lower;
  }

  // ---------------------------------------------------------------- answers that are not errors

  lemma EmptyBodyIsSuccess(parse: Parser)
    ensures Interpret(parse, "") == Success
  {
  }

  /** A page in place of JSON. */
  lemma PageIsSuccess(parse: Parser)
    ensures Interpret(parse, "<html>login</html>") == Success
  {
    assert Trim("<html>login</html>")[0] == '<' by {
      assert TrimLeft("<html>login</html>") == "<html>login</html>";
    }
  }

  lemma CutOffIsSuccess(parse: Parser)
    requires parse("{").None?
    ensures Interpret(parse, "{") == Success
  {
    assert Trim("{") == "{";
  }

  lemma NoStatusIsSuccess(parse: Parser)
    requires parse("{}") == Some(map[])
    ensures Interpret(parse, "{}") == Success
  {
    assert Trim("{}") == "{}";
  }

  const MISSING_DIR := "{\"status\":false,\"msg\":\"does not exist\"}"
  const MISSING_MSG := "does not exist"

  lemma MissingSaysExists()
    ensures SaysExists(MISSING_MSG)
  {
    hide Contains;
    ContainsAt(MISSING_MSG, "exist", 9);
    assert Lower(MISSING_MSG) == MISSING_MSG;
  }

  lemma MissingIsTrimmed()
    ensures Trim(MISSING_DIR) == MISSING_DIR && MISSING_DIR[0] == '{'
  {
    assert !IsSpace(MISSING_DIR[0]) && !IsSpace(MISSING_DIR[|MISSING_DIR| - 1]);
  }

  /** A complaint that something does not exist is taken for "already there". */
  lemma MissingIsAlreadyExists(parse: Parser)
    requires parse(MISSING_DIR) == Some(map["status" := Bool(false), "msg" := Str(MISSING_MSG)])
    ensures Interpret(parse, MISSING_DIR) == AlreadyExists
  {
    hide Trim, SaysExists;
    MissingSaysExists();
    MissingIsTrimmed();
  }

  lemma {:induction false} ContainsAt(s: string, part: string, at: nat)
    requires at <= |s| && part <= s[at..]
    ensures Contains(s, part)
    decreases at
  {
    if at > 0 {
      assert s[1..][at - 1..] == s[at..];
      ContainsAt(s[1..], part, at - 1);
    }
  }
}
