/** The fixed table of built-in GraphQL scalars (`SIMPLE_TYPE_MAP` in `constants.py`). */
module Constants {

  const SimpleTypeMap: map<string, string> :=
    map["ID" := "str", "String" := "str", "Int" := "int", "Float" := "float", "Boolean" := "bool"]
}
