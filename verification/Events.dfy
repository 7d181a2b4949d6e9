/** Change events as the decoder hands them to the sinks. */
module Events {
  import opened Prelude

  datatype Operation = Insert | Update | Delete | Truncate | Read

  /** A column value: SQL null, or something that prints as `text`. Values of different kinds may
      print alike. */
  datatype Value = Null | Val(kind: nat, text: string)

  type Data = map<string, Value>

  /** `toast` lists the columns an update left out because their stored value did not change. */
  datatype Event = Event(
    id: string, op: Operation, schema: string, table: string,
    oldData: Option<Data>, newData: Option<Data>, toast: seq<string>)

  function FullName(ev: Event): string { ev.schema + "." + ev.table }
}
