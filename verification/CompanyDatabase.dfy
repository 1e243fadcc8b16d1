/** The company's database, which every service shares. */
module CompanyDatabase {
  import opened Company

  class Database {
    var store: Store

    constructor (st: Store)
      ensures store == st
    {
      store := st;
    }
  }
}
