/**
 * The force-reply markup: it asks the client to show a reply interface,
 * optionally with a placeholder and only for selected users. It is built by
 * value; an absent option is left out of the serialised object.
 */
module ForceReplyMarkup {
  import opened Common
  import opened Json

  datatype ForceReply = ForceReply(
    forceReply: bool,
    inputFieldPlaceholder: Option<string>,
    selective: Option<bool>)
  {
    static const Keys: seq<string> := ["force_reply", "input_field_placeholder", "selective"]

    static lemma KeysDistinct()
      ensures Distinct(Keys)
    {
    }

    function Values(): (vs: seq<Option<Value>>)
      ensures |vs| == |Keys|
    {
      [Some(Bool(forceReply)), OptStr(inputFieldPlaceholder), OptBool(selective)]
    }

    /** A new markup carries only the flag it was given. */
    static function New(forceReply: bool): (f: ForceReply)
      ensures f.forceReply == forceReply
      ensures f.ToJson() == map["force_reply" := Bool(forceReply)]
    {
      var f := ForceReply(forceReply, None, None);
      ObjectOfNone(Keys[1..], f.Values()[1..]);
      f
    }

    /** The flag is always written; each option exactly when it is set, false included. */
    function ToJson(): (m: JsonObject)
      ensures "force_reply" in m && m["force_reply"] == Bool(forceReply)
      ensures "input_field_placeholder" in m <==> inputFieldPlaceholder.Some?
      ensures "selective" in m <==> selective.Some?
      ensures inputFieldPlaceholder.Some? ==> m["input_field_placeholder"] == Str(inputFieldPlaceholder.value)
      ensures selective.Some? ==> m["selective"] == Bool(selective.value)
      ensures m.Keys <= {"force_reply", "input_field_placeholder", "selective"}
    {
      var vs := Values();
      KeysDistinct();
      ObjectOfAt(Keys, vs, 0);
      ObjectOfAt(Keys, vs, 1);
      ObjectOfAt(Keys, vs, 2);
      ObjectOfKeys(Keys, vs);
      ObjectOf(Keys, vs)
    }

    /** Sets the placeholder and nothing else. */
    function WithInputFieldPlaceholder(value: string): (r: ForceReply)
      ensures r.inputFieldPlaceholder == Some(value)
      ensures r.(inputFieldPlaceholder := inputFieldPlaceholder) == this
      ensures r.ToJson() == ToJson()["input_field_placeholder" := Str(value)]
    {
      var r := this.(inputFieldPlaceholder := Some(value));
      assert r.Values() == Values()[1 := Some(Str(value))];
      KeysDistinct();
      ObjectOfUpdate(Keys, Values(), 1, Str(value));
      r
    }

    /** Sets the selective flag and nothing else. */
    function WithSelective(selective: bool): (r: ForceReply)
      ensures r.selective == Some(selective)
      ensures r.(selective := this.selective) == this
      ensures r.ToJson() == ToJson()["selective" := Bool(selective)]
    {
      var r := this.(selective := Some(selective));
      assert r.Values() == Values()[2 := Some(Bool(selective))];
      KeysDistinct();
      ObjectOfUpdate(Keys, Values(), 2, Bool(selective));
      r
    }
  }

  /** A selective flag of `false` is written, not dropped: only an absent option is skipped. */
  lemma FalseIsWritten(v: bool)
    ensures ForceReply.New(v).WithSelective(false).ToJson()
            == map["force_reply" := Bool(v), "selective" := Bool(false)]
  {
  }

  /** With both setters applied, in either order, the object has exactly the three keys. */
  lemma AllSettersThreeKeys(v: bool, placeholder: string, selective: bool)
    ensures ForceReply.New(v).WithSelective(selective).WithInputFieldPlaceholder(placeholder).ToJson()
            == map["force_reply" := Bool(v), "selective" := Bool(selective),
                   "input_field_placeholder" := Str(placeholder)]
    ensures ForceReply.New(v).WithInputFieldPlaceholder(placeholder).WithSelective(selective).ToJson()
            == ForceReply.New(v).WithSelective(selective).WithInputFieldPlaceholder(placeholder).ToJson()
  {
  }
}
