/**
 * What a driver sees of one managed object: the plugin SDK's
 * *schema.ResourceData reduced to the stored id (d.Id / d.SetId), the
 * record's field values (d.Get / d.GetOk / d.Set) and the fields the plan
 * changes (d.HasChange). Drivers report through diag.Diagnostics.
 */
module Schema {
  import opened Common

  /** A field of an element of a list or set field ("sources", "function_args"). */
  datatype Scalar = SStr(s: string) | SInt(i: int)

  /** A field value: a string, an integer, or the elements of a list or set field in List() order. */
  datatype Value = Str(s: string) | Int(i: int) | Rows(rows: seq<map<string, Scalar>>)

  /** diag.Diagnostics: empty on success; diag.FromErr(err) is a one-element list. */
  type Diagnostics = seq<Error>

  /** d.GetOk reports a field as set when it holds a non-zero value. */
  predicate NonZero(v: Value)
  {
    match v
    case Str(s) => s != ""
    case Int(i) => i != 0
    case Rows(rows) => |rows| > 0
  }

  class ResourceData {
    var id: string
    var fields: map<string, Value>
    /** The fields whose planned value differs from the stored one. */
    const changed: set<string>

    constructor (id: string, fields: map<string, Value>, changed: set<string>)
      ensures this.id == id && this.fields == fields && this.changed == changed
    {
      this.id := id;
      this.fields := fields;
      this.changed := changed;
    }

    /** d.Get(key).(string): the zero value "" when the field is not set. */
    function GetString(key: string): string
      reads this
    {
      if key in fields && fields[key].Str? then fields[key].s else ""
    }

    /** d.Get(key).(*schema.Set).List() */
    function GetRows(key: string): seq<map<string, Scalar>>
      reads this
    {
      if key in fields && fields[key].Rows? then fields[key].rows else []
    }

    /** The ok result of d.GetOk(key). */
    predicate GetOk(key: string)
      reads this
    {
      key in fields && NonZero(fields[key])
    }

    /** For a string field, guarding d.Get with d.GetOk changes nothing: an unset field reads as "". */
    lemma GetOkGuardRedundant(key: string)
      ensures (if GetOk(key) then GetString(key) else "") == GetString(key)
    {
    }

    predicate HasChange(key: string)
    {
      key in changed
    }

    method SetId(v: string)
      modifies this`id
      ensures id == v
    {
      id := v;
    }

    method Set(key: string, v: Value)
      modifies this`fields
      ensures fields == old(fields)[key := v]
    {
      fields := fields[key := v];
    }
  }
}
