/**
 * The uniqueness query every `clean_<field>` of the edit forms runs:
 * `Model.objects.filter(col=value).exclude(pk=instance.pk).exists()`.
 */
module Tables {
  import opened Wrappers

  /** One row of a table, reduced to its primary key and the column queried. */
  datatype Keyed<K> = Keyed(id: nat, key: K)

  /**
   * Some row other than the one being edited holds `key`. A form that
   * creates a record has no instance id, and then every row counts.
   */
  predicate TakenByOther<K(==)>(rows: seq<Keyed<K>>, key: K, editing: Option<nat>) {
    exists i :: 0 <= i < |rows| && rows[i].key == key && editing != Some(rows[i].id)
  }

  /**
   * Re-saving a record with its own value passes: when only the edited row
   * holds `key`, the key is not taken.
   */
  lemma OwnKeyNotTaken<K>(rows: seq<Keyed<K>>, key: K, id: nat)
    requires forall i :: 0 <= i < |rows| && rows[i].key == key ==> rows[i].id == id
    ensures !TakenByOther(rows, key, Some(id))
  {
  }
}
